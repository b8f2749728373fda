/**
 Jobs on the hub: submission with deduplication, the queue, dispatch, requeue and finish.
 Output paths and keys of jobs in flight are listed until the job lets go of them.
 */
module Jobs {
  import opened StorePath
  import opened Graph

  type Key = string
  const MAX_ATTEMPTS: nat := 3

  /**
   Listed and about to be queued, queued, taken off the queue, with a supervisor, settled,
   or gone because its submission was cancelled before it was queued.
   */
  datatype Place = Submitting | Queued | Taken | Running | Settled | Gone

  datatype Job = Job(key: Key, place: Place, listed: bool, attempts: nat, dispatches: nat, finishes: nat)

  /** `byKey` names the job that answers for a key, `byPath` the output paths in use. */
  datatype State = State(byKey: map<Key, nat>, byPath: set<Path>, jobs: seq<Job>, queue: seq<nat>)

  /** Equal requests have equal outputs, and every request has some. */
  predicate Outputs(outs: Key -> set<Path>, k: Key) { outs(k) != {} }

  ghost predicate Config(outs: Key -> set<Path>) { forall k: Key :: Outputs(outs, k) }

  // ---- the registry ----------------------------------------------------------------------

  /** Refused if an output path is in use. The key is not looked at again. */
  function Listed(outs: Key -> set<Path>, s: State, k: Key): State
  {
    if outs(k) !! s.byPath then
      s.(byKey := s.byKey[k := |s.jobs|], byPath := s.byPath + outs(k),
        jobs := s.jobs + [Job(k, Submitting, true, 0, 0, 0)])
    else s
  }

  /** Dropping the listing takes the key and the paths out. A job has one to drop, once. */
  function Unlisted(outs: Key -> set<Path>, s: State, i: nat): State
    requires i < |s.jobs|
  {
    var j := s.jobs[i];
    if !j.listed then s else
      s.(byKey := s.byKey - {j.key}, byPath := s.byPath - outs(j.key), jobs := s.jobs[i := j.(listed := false)])
  }

  // ---- steps ------------------------------------------------------------------------------

  datatype Event =
    | Submit(key: Key)
    | Push(id: nat)
    | Abandon(id: nat)
    | Take(id: nat)
    | Drop(id: nat)
    | Dispatch(id: nat)
    | Unlist(id: nat)
    | Requeue(id: nat)
    | Settle(id: nat)

  predicate At(s: State, i: nat, p: Place) { i < |s.jobs| && s.jobs[i].place == p }

  predicate Enabled(s: State, e: Event)
  {
    match e
    case Submit(_) => true
    case Push(i) => At(s, i, Submitting)
    case Abandon(i) => At(s, i, Submitting)
    case Take(i) => i in s.queue && i < |s.jobs|
    case Drop(i) => At(s, i, Taken)
    case Dispatch(i) => At(s, i, Taken)
    case Unlist(i) => At(s, i, Running)
    case Requeue(i) => At(s, i, Running) && s.jobs[i].attempts < MAX_ATTEMPTS
    case Settle(i) => At(s, i, Running)
  }

  function Without(q: seq<nat>, i: nat): seq<nat>
  {
    if q == [] then [] else if q[0] == i then q[1..] else [q[0]] + Without(q[1..], i)
  }

  function Finished(outs: Key -> set<Path>, s: State, i: nat): State
    requires i < |s.jobs|
  {
    var t := Unlisted(outs, s, i);
    t.(jobs := t.jobs[i := t.jobs[i].(place := Settled, finishes := t.jobs[i].finishes + 1)])
  }

  /** The submission is dropped, and with it the listing. Nobody is told. */
  function Abandoned(outs: Key -> set<Path>, s: State, i: nat): State
    requires i < |s.jobs|
  {
    var t := Unlisted(outs, s, i);
    t.(jobs := t.jobs[i := t.jobs[i].(place := Gone)])
  }

  function Put(s: State, i: nat, j: Job): State
    requires i < |s.jobs|
  {
    s.(jobs := s.jobs[i := j])
  }

  function Next(outs: Key -> set<Path>, s: State, e: Event): State
    requires Enabled(s, e)
  {
    match e
    case Submit(k) => Listed(outs, s, k)
    case Push(i) => Put(s, i, s.jobs[i].(place := Queued)).(queue := s.queue + [i])
    case Abandon(i) => Abandoned(outs, s, i)
    case Take(i) => Put(s, i, s.jobs[i].(place := Taken)).(queue := Without(s.queue, i))
    case Drop(i) => Finished(outs, s, i)
    case Dispatch(i) => Put(s, i, s.jobs[i].(place := Running, dispatches := s.jobs[i].dispatches + 1))
    case Unlist(i) => Unlisted(outs, s, i)
    case Requeue(i) =>
      Put(s, i, s.jobs[i].(place := Queued, attempts := s.jobs[i].attempts + 1)).(queue := s.queue + [i])
    case Settle(i) => Finished(outs, s, i)
  }

  // ---- what always holds ----------------------------------------------------------------------

  /** The registry is the union of the live listings, and they share nothing. */
  predicate Registry(outs: Key -> set<Path>, s: State)
  {
    && (forall k <- s.byKey :: s.byKey[k] < |s.jobs| && s.jobs[s.byKey[k]].listed && s.jobs[s.byKey[k]].key == k)
    && (forall i | 0 <= i < |s.jobs| && s.jobs[i].listed ::
          s.jobs[i].key in s.byKey && s.byKey[s.jobs[i].key] == i && outs(s.jobs[i].key) <= s.byPath)
    && (forall p <- s.byPath :: exists i :: 0 <= i < |s.jobs| && s.jobs[i].listed && p in outs(s.jobs[i].key))
    && (forall i, j | 0 <= i < j < |s.jobs| && s.jobs[i].listed && s.jobs[j].listed ::
          outs(s.jobs[i].key) !! outs(s.jobs[j].key))
  }

  /** A job is in the queue once if it is queued, and not at all otherwise. */
  predicate Lined(s: State)
  {
    && Distinct(s.queue) && (forall i <- s.queue :: i < |s.jobs|)
    && forall i | 0 <= i < |s.jobs| :: i in s.queue <==> s.jobs[i].place == Queued
  }

  predicate Over(j: Job) { j.place == Settled || j.place == Gone }

  /** Finished once, at the end, with its listing gone. Dispatched once more than requeued. */
  predicate Tally(j: Job)
  {
    && j.finishes == (if j.place == Settled then 1 else 0) && (Over(j) ==> !j.listed)
    && (j.place != Running && !Over(j) ==> j.listed || j.dispatches > 0)
    && j.attempts <= MAX_ATTEMPTS
    && (j.place == Running ==> j.dispatches == j.attempts + 1)
    && (Over(j) ==> j.dispatches <= j.attempts + 1)
    && (j.place != Running && !Over(j) ==> j.dispatches == j.attempts)
  }

  predicate Tallied(s: State) { forall i | 0 <= i < |s.jobs| :: Tally(s.jobs[i]) }

  predicate Inv(outs: Key -> set<Path>, s: State) { Registry(outs, s) && Lined(s) && Tallied(s) }

  /** The key's job is in flight: then its paths are in use, so a second listing is refused. */
  lemma ListedRegistry(outs: Key -> set<Path>, s: State, k: Key)
    requires Registry(outs, s) && Outputs(outs, k)
    ensures Registry(outs, Listed(outs, s, k)) && (k in s.byKey ==> Listed(outs, s, k) == s)
  {
    if outs(k) !! s.byPath {
      var t := Listed(outs, s, k);
      var p :| p in outs(k);
      assert k !in s.byKey;
      assert forall i | 0 <= i < |s.jobs| :: t.jobs[i] == s.jobs[i];
      forall q | q in t.byPath
        ensures exists i :: 0 <= i < |t.jobs| && t.jobs[i].listed && q in outs(t.jobs[i].key)
      {
        if q in s.byPath {
          var i :| 0 <= i < |s.jobs| && s.jobs[i].listed && q in outs(s.jobs[i].key);
          assert t.jobs[i].listed;
        } else {
          assert t.jobs[|s.jobs|].listed;
        }
      }
    }
  }

  lemma ListedInv(outs: Key -> set<Path>, s: State, k: Key)
    requires Inv(outs, s) && Outputs(outs, k)
    ensures Inv(outs, Listed(outs, s, k)) && (k in s.byKey ==> Listed(outs, s, k) == s)
  {
    hide Registry;
    ListedRegistry(outs, s, k);
  }

  lemma UnlistedRegistry(outs: Key -> set<Path>, s: State, i: nat)
    requires Registry(outs, s) && i < |s.jobs|
    ensures Registry(outs, Unlisted(outs, s, i))
  {
    var t := Unlisted(outs, s, i);
    if s.jobs[i].listed {
      forall q | q in t.byPath
        ensures exists n :: 0 <= n < |t.jobs| && t.jobs[n].listed && q in outs(t.jobs[n].key)
      {
        var n :| 0 <= n < |s.jobs| && s.jobs[n].listed && q in outs(s.jobs[n].key);
        assert n != i && t.jobs[n] == s.jobs[n];
      }
    }
  }

  /** Dropping a listing takes nothing of another job's. */
  lemma UnlistKeepsOthers(outs: Key -> set<Path>, s: State, i: nat, j: nat)
    requires Registry(outs, s) && i < |s.jobs| && j < |s.jobs| && i != j && s.jobs[j].listed
    ensures var t := Unlisted(outs, s, i);
      s.jobs[j].key in t.byKey && t.byKey[s.jobs[j].key] == j && outs(s.jobs[j].key) <= t.byPath
  {}

  /** Moving a job about without touching its listing. */
  lemma PutRegistry(outs: Key -> set<Path>, s: State, i: nat, j: Job, queue: seq<nat>)
    requires Registry(outs, s) && i < |s.jobs| && j.listed == s.jobs[i].listed && j.key == s.jobs[i].key
    ensures Registry(outs, Put(s, i, j).(queue := queue))
  {
    var t := Put(s, i, j).(queue := queue);
    assert forall n | 0 <= n < |s.jobs| :: t.jobs[n].listed == s.jobs[n].listed && t.jobs[n].key == s.jobs[n].key;
    forall q | q in t.byPath
      ensures exists n :: 0 <= n < |t.jobs| && t.jobs[n].listed && q in outs(t.jobs[n].key)
    {
      var n :| 0 <= n < |s.jobs| && s.jobs[n].listed && q in outs(s.jobs[n].key);
      assert t.jobs[n].listed;
    }
  }

  lemma {:induction false} WithoutIs(q: seq<nat>, i: nat)
    requires Distinct(q)
    ensures Distinct(Without(q, i)) && forall x :: x in Without(q, i) <==> x in q && x != i
  {
    if q != [] {
      WithoutIs(q[1..], i);
      assert q == [q[0]] + q[1..];
      assert q[0] !in q[1..];
    }
  }

  lemma QueueOn(s: State, i: nat, j: Job)
    requires Lined(s) && i < |s.jobs| && s.jobs[i].place != Queued && j.place == Queued
    ensures Lined(Put(s, i, j).(queue := s.queue + [i]))
  {}

  lemma QueueOff(s: State, i: nat, j: Job)
    requires Lined(s) && i < |s.jobs| && i in s.queue && j.place != Queued
    ensures Lined(Put(s, i, j).(queue := Without(s.queue, i)))
  {
    WithoutIs(s.queue, i);
  }

  lemma FinishedInv(outs: Key -> set<Path>, s: State, i: nat)
    requires Inv(outs, s) && i < |s.jobs| && (s.jobs[i].place == Taken || s.jobs[i].place == Running)
    ensures Inv(outs, Finished(outs, s, i))
  {
    hide Registry;
    var t := Unlisted(outs, s, i);
    UnlistedRegistry(outs, s, i);
    PutRegistry(outs, t, i, t.jobs[i].(place := Settled, finishes := t.jobs[i].finishes + 1), t.queue);
    assert Tally(s.jobs[i]);
  }

  lemma AbandonedInv(outs: Key -> set<Path>, s: State, i: nat)
    requires Inv(outs, s) && i < |s.jobs| && s.jobs[i].place == Submitting
    ensures Inv(outs, Abandoned(outs, s, i))
  {
    var t := Unlisted(outs, s, i);
    UnlistedRegistry(outs, s, i);
    PutRegistry(outs, t, i, t.jobs[i].(place := Gone), t.queue);
    assert Tally(s.jobs[i]);
  }

  /** A job moves on with its tally right, on, off or beside the queue. */
  lemma MoveInv(outs: Key -> set<Path>, s: State, i: nat, j: Job, queue: seq<nat>)
    requires Inv(outs, s) && i < |s.jobs| && j.listed == s.jobs[i].listed && j.key == s.jobs[i].key
    requires Tally(s.jobs[i]) ==> Tally(j)
    requires Lined(Put(s, i, j).(queue := queue))
    ensures Inv(outs, Put(s, i, j).(queue := queue))
  {
    hide Registry, Lined, Tally;
    PutRegistry(outs, s, i, j, queue);
  }

  lemma Beside(s: State, i: nat, j: Job)
    requires Lined(s) && i < |s.jobs| && s.jobs[i].place != Queued && j.place != Queued
    ensures Lined(Put(s, i, j).(queue := s.queue))
  {}

  lemma UnlistedInv(outs: Key -> set<Path>, s: State, i: nat)
    requires Inv(outs, s) && At(s, i, Running)
    ensures Inv(outs, Unlisted(outs, s, i))
  {
    hide Registry;
    UnlistedRegistry(outs, s, i);
    assert Tally(s.jobs[i]);
  }

  lemma InvStep(outs: Key -> set<Path>, s: State, e: Event)
    requires Config(outs) && Inv(outs, s) && Enabled(s, e)
    ensures Inv(outs, Next(outs, s, e))
  {
    hide Registry, Lined, Tallied, Without, Finished, Abandoned, Unlisted, Listed;
    match e
    case Submit(k) =>
      assert Outputs(outs, k);
      ListedInv(outs, s, k);
    case Push(i) =>
      var j := s.jobs[i].(place := Queued);
      QueueOn(s, i, j);
      MoveInv(outs, s, i, j, s.queue + [i]);
    case Take(i) =>
      var j := s.jobs[i].(place := Taken);
      QueuedThere(s, i);
      QueueOff(s, i, j);
      MoveInv(outs, s, i, j, Without(s.queue, i));
    case Abandon(i) => AbandonedInv(outs, s, i);
    case Drop(i) => FinishedInv(outs, s, i);
    case Dispatch(i) =>
      var j := s.jobs[i].(place := Running, dispatches := s.jobs[i].dispatches + 1);
      Beside(s, i, j);
      MoveInv(outs, s, i, j, s.queue);
    case Unlist(i) => UnlistedInv(outs, s, i);
    case Requeue(i) =>
      var j := s.jobs[i].(place := Queued, attempts := s.jobs[i].attempts + 1);
      QueueOn(s, i, j);
      MoveInv(outs, s, i, j, s.queue + [i]);
    case Settle(i) => FinishedInv(outs, s, i);
  }

  lemma QueuedThere(s: State, i: nat)
    requires Lined(s) && i in s.queue
    ensures At(s, i, Queued)
  {}

  // ---- runs ---------------------------------------------------------------------------------

  ghost predicate Step(outs: Key -> set<Path>, s: State, t: State)
  {
    exists e :: Enabled(s, e) && t == Next(outs, s, e)
  }

  ghost predicate IsRun(outs: Key -> set<Path>, run: seq<State>)
  {
    && |run| > 0 && run[0] == State(map[], {}, [], [])
    && forall i :: 0 < i < |run| ==> Step(outs, run[i - 1], run[i])
  }

  lemma {:induction false} RunInv(outs: Key -> set<Path>, run: seq<State>, i: nat)
    requires Config(outs) && IsRun(outs, run) && i < |run|
    ensures Inv(outs, run[i])
  {
    if i > 0 {
      hide Inv;
      RunInv(outs, run, i - 1);
      assert Step(outs, run[i - 1], run[i]);
      var e :| Enabled(run[i - 1], e) && run[i] == Next(outs, run[i - 1], e);
      InvStep(outs, run[i - 1], e);
    }
  }

  /**
   At every point of every run: what is listed is exactly what the live listings name, no two
   of them share a key or a path, a queued job is in the queue once and no other job is, a job
   is finished once at most, and sent to a worker at most once more than it may be retried.
   */
  lemma Safety(outs: Key -> set<Path>, run: seq<State>, s: State)
    requires Config(outs) && IsRun(outs, run) && s in run
    ensures Registry(outs, s) && Lined(s)
    ensures forall i, j | 0 <= i < j < |s.jobs| && s.jobs[i].listed && s.jobs[j].listed ::
      s.jobs[i].key != s.jobs[j].key
    ensures forall j <- s.jobs ::
      j.finishes <= 1 && (j.finishes == 1 <==> j.place == Settled) && j.dispatches <= MAX_ATTEMPTS + 1
  {
    var n :| 0 <= n < |run| && run[n] == s;
    RunInv(outs, run, n);
    forall j | j in s.jobs
      ensures j.finishes <= 1 && (j.finishes == 1 <==> j.place == Settled) && j.dispatches <= MAX_ATTEMPTS + 1
    {
      assert Tally(j);
    }
  }

  /** A job that lost its worker and is not queued again had four. */
  lemma LostForGood(outs: Key -> set<Path>, run: seq<State>, s: State, i: nat)
    requires Config(outs) && IsRun(outs, run) && s in run && At(s, i, Running) && !Enabled(s, Requeue(i))
    ensures s.jobs[i].dispatches == 4
  {
    var n :| 0 <= n < |run| && run[n] == s;
    RunInv(outs, run, n);
    assert Tally(s.jobs[i]);
  }

  lemma Shifted(first: nat, a: seq<nat>, i: nat, b: seq<nat>)
    ensures [first] + (a + [i] + b) == [first] + a + [i] + b && [first] + (a + b) == [first] + a + b
  {}

  lemma WithoutFirst(q: seq<nat>, i: nat)
    requires q != []
    ensures q == [q[0]] + q[1..] && Without(q, i) == if q[0] == i then q[1..] else [q[0]] + Without(q[1..], i)
    ensures q[0] != i && i in q ==> i in q[1..]
  {
    assert q == [q[0]] + q[1..];
  }

  lemma {:induction false} WithoutApart(q: seq<nat>, i: nat) returns (ahead: seq<nat>, behind: seq<nat>)
    requires i in q
    ensures q == ahead + [i] + behind && Without(q, i) == ahead + behind
  {
    hide Without;
    WithoutFirst(q, i);
    if q[0] == i {
      ahead, behind := [], q[1..];
      assert [] + [i] + behind == [i] + behind && [] + behind == behind;
    } else {
      var a, b := WithoutApart(q[1..], i);
      ahead, behind := [q[0]] + a, b;
      Shifted(q[0], a, i, b);
    }
  }

  /** Jobs wait in the order they were queued: new ones at the back, and taking one moves no other. */
  lemma QueueInOrder(outs: Key -> set<Path>, s: State, e: Event) returns (ahead: seq<nat>, behind: seq<nat>)
    requires Enabled(s, e)
    ensures var q := Next(outs, s, e).queue;
      if e.Take? then s.queue == ahead + [e.id] + behind && q == ahead + behind
      else if e.Push? || e.Requeue? then q == s.queue + [e.id]
      else q == s.queue
  {
    ahead, behind := [], [];
    if e.Take? { ahead, behind := WithoutApart(s.queue, e.id); }
  }

  // ---- every job ends ---------------------------------------------------------------------------

  function PlaceRank(p: Place): nat
  {
    match p
    case Submitting => 4
    case Queued => 3
    case Taken => 2
    case Running => 1
    case _ => 0
  }

  /** How far a job is from being settled, retries and its listing included. */
  function JobRank(j: Job): nat
  {
    10 * (if j.attempts <= MAX_ATTEMPTS then MAX_ATTEMPTS - j.attempts else 0) + 2 * PlaceRank(j.place)
      + if j.listed then 1 else 0
  }

  function Rank(jobs: seq<Job>): nat { if jobs == [] then 0 else JobRank(jobs[0]) + Rank(jobs[1..]) }

  lemma {:induction false} RankPut(jobs: seq<Job>, i: nat, j: Job)
    requires i < |jobs|
    ensures Rank(jobs[i := j]) == Rank(jobs) - JobRank(jobs[i]) + JobRank(j)
  {
    if i == 0 {
      assert jobs[0 := j][1..] == jobs[1..];
    } else {
      RankPut(jobs[1..], i - 1, j);
      assert jobs[i := j][1..] == jobs[1..][i - 1 := j];
    }
  }

  /** Apart from submissions every step that does something brings a job nearer its end. */
  lemma StepFalls(outs: Key -> set<Path>, s: State, e: Event)
    requires Inv(outs, s) && Enabled(s, e) && !e.Submit? && (e.Unlist? ==> s.jobs[e.id].listed)
    ensures Rank(Next(outs, s, e).jobs) < Rank(s.jobs)
  {
    hide Registry;
    var i := e.id;
    assert Tally(s.jobs[i]);
    var t := Next(outs, s, e);
    RankPut(s.jobs, i, t.jobs[i]);
    assert t.jobs == s.jobs[i := t.jobs[i]];
  }

  /** A step that does something and is not a submission. */
  predicate Working(s: State, e: Event) { Enabled(s, e) && !e.Submit? && (e.Unlist? ==> s.jobs[e.id].listed) }

  ghost predicate Works(outs: Key -> set<Path>, s: State, t: State)
  {
    exists e :: Working(s, e) && t == Next(outs, s, e)
  }

  ghost predicate Idle(s: State) { !exists e :: Working(s, e) }

  predicate AllOver(s: State) { forall j <- s.jobs :: Over(j) }

  lemma WorkFalls(outs: Key -> set<Path>, s: State, t: State)
    requires Config(outs) && Inv(outs, s) && Works(outs, s, t)
    ensures Inv(outs, t) && Rank(t.jobs) < Rank(s.jobs)
  {
    var e :| Working(s, e) && t == Next(outs, s, e);
    InvStep(outs, s, e);
    StepFalls(outs, s, e);
  }

  lemma {:induction false} Descend(outs: Key -> set<Path>, f: nat -> State, stop: State -> bool, i: nat,
        rank: nat) returns (k: nat)
    requires Config(outs) && Inv(outs, f(i)) && rank == Rank(f(i).jobs)
    requires forall j: nat :: !stop(f(j)) ==> Works(outs, f(j), f(j + 1))
    ensures stop(f(k))
    decreases rank
  {
    hide Inv, Works, Rank;
    k := i;
    if !stop(f(i)) {
      WorkFalls(outs, f(i), f(i + 1));
      k := Descend(outs, f, stop, i + 1, Rank(f(i + 1).jobs));
    }
  }

  /** Once submissions cease, no schedule goes on forever. */
  lemma WorkEnds(outs: Key -> set<Path>, f: nat -> State)
    requires Config(outs) && Inv(outs, f(0))
    ensures exists k: nat :: !Works(outs, f(k), f(k + 1))
  {
    if forall k: nat :: Works(outs, f(k), f(k + 1)) {
      var k := Descend(outs, f, _ => false, 0, Rank(f(0).jobs));
    }
  }

  /** Whatever the schedule, working until every job is over gets there. */
  lemma EventuallyOver(outs: Key -> set<Path>, f: nat -> State)
    requires Config(outs) && Inv(outs, f(0))
    requires forall k: nat :: !AllOver(f(k)) ==> Works(outs, f(k), f(k + 1))
    ensures exists k: nat :: AllOver(f(k))
  {
    var k := Descend(outs, f, s => AllOver(s), 0, Rank(f(0).jobs));
  }

  /** A job that is not over can always be moved. */
  lemma NotStuck(outs: Key -> set<Path>, s: State, i: nat) returns (e: Event)
    requires Inv(outs, s) && i < |s.jobs| && !Over(s.jobs[i])
    ensures Working(s, e)
  {
    e := match s.jobs[i].place
      case Submitting => Push(i)
      case Queued => Take(i)
      case Taken => Dispatch(i)
      case _ => Settle(i);
  }

  lemma IdleQueue(s: State)
    requires Lined(s) && Idle(s)
    ensures s.queue == []
  {
    if s.queue != [] {
      var i := s.queue[0];
      assert i in s.queue && i < |s.jobs|;
      assert Working(s, Take(i));
    }
  }

  /** A run that only a submission could prolong has every job settled or gone, and nothing listed. */
  lemma MaximalRunOver(outs: Key -> set<Path>, run: seq<State>)
    requires Config(outs) && IsRun(outs, run) && Idle(run[|run| - 1])
    ensures var s := run[|run| - 1]; AllOver(s) && s.queue == [] && s.byKey == map[] && s.byPath == {}
  {
    var s := run[|run| - 1];
    RunInv(outs, run, |run| - 1);
    IdleQueue(s);
    forall i: nat | i < |s.jobs|
      ensures Over(s.jobs[i])
    {
      if !Over(s.jobs[i]) { var e := NotStuck(outs, s, i); }
    }
    assert forall i: nat | i < |s.jobs| :: Tally(s.jobs[i]);
    assert s.byKey.Keys == {};
  }

  // ---- the registry as an object ------------------------------------------------------------------

  class Inflight {
    const outs: Key -> set<Path>
    var byKey: map<Key, nat>
    var byPath: set<Path>
    ghost var jobs: seq<Job>
    ghost var queue: seq<nat>

    ghost function View(): State
      reads this
    {
      State(byKey, byPath, jobs, queue)
    }

    /** None if another job in flight claims one of the paths. */
    method List(k: Key, id: nat) returns (ok: bool)
      requires Registry(outs, View()) && Outputs(outs, k) && id == |jobs|
      modifies this
      ensures Registry(outs, View()) && View() == Listed(outs, old(View()), k)
      ensures ok == (outs(k) !! old(byPath)) && (k in old(byKey) ==> !ok)
      ensures ok ==> k in byKey && byKey[k] == id && outs(k) <= byPath
    {
      ListedRegistry(outs, View(), k);
      ok := outs(k) !! byPath;
      if ok {
        byKey := byKey[k := id];
        byPath := byPath + outs(k);
        jobs := jobs + [Job(k, Submitting, true, 0, 0, 0)];
      }
    }

    /** Drop of a listing. The job that held it has none from then on. */
    method Release(k: Key, ghost i: nat)
      requires Registry(outs, View()) && i < |jobs| && jobs[i].listed && jobs[i].key == k
      modifies this
      ensures Registry(outs, View()) && View() == Unlisted(outs, old(View()), i)
    {
      UnlistedRegistry(outs, View(), i);
      byKey := byKey - {k};
      byPath := byPath - outs(k);
      jobs := jobs[i := jobs[i].(listed := false)];
    }
  }
}

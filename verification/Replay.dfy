/** The buffered event log of one build, replayed to late subscribers and then followed live. */
module Replay {

  datatype Event = Log(size: nat) | Output(size: nat) | Note(size: nat) | Error(size: nat) | ExitCode

  const MAX_BYTES: nat := 256 * 1024 * 1024
  const OVERHEAD: nat := 64

  function Size(e: Event): nat { OVERHEAD + if e.ExitCode? then 0 else e.size }

  function Sizes(es: seq<Event>): nat { if es == [] then 0 else Sizes(es[..|es| - 1]) + Size(es[|es| - 1]) }

  /** What a subscriber receives: events, or word that it cannot have them. */
  datatype Item = Event(event: Event) | Overflowed | Gone

  /** `streams` is what each subscriber got so far, `subs` who is still being sent to. */
  datatype Buffer = Buffer(events: seq<Event>, bytes: nat, overflowed: bool, subs: set<nat>, done: bool,
    streams: seq<seq<Item>>)

  function Items(es: seq<Event>): seq<Item> { seq(|es|, i requires 0 <= i < |es| => Item.Event(es[i])) }

  // ---- operations ---------------------------------------------------------------------------

  function Sent(streams: seq<seq<Item>>, to: set<nat>, e: Event): seq<seq<Item>>
  {
    seq(|streams|, i requires 0 <= i < |streams| => if i in to then streams[i] + [Item.Event(e)] else streams[i])
  }

  /** Subscribers that are gone, or that stall, get nothing from here on. */
  function Published(b: Buffer, e: Event, lost: set<nat>): Buffer
  {
    var c := b.(subs := b.subs - lost, streams := Sent(b.streams, b.subs - lost, e));
    if c.overflowed then c
    else if c.bytes + Size(e) > MAX_BYTES then c.(overflowed := true, events := [], bytes := 0)
    else c.(bytes := c.bytes + Size(e), events := c.events + [e])
  }

  predicate Concluded(es: seq<Event>) { exists e <- es :: e.ExitCode? || e.Error? }

  function Subscribed(b: Buffer): Buffer
  {
    if b.overflowed then b.(streams := b.streams + [[Overflowed]])
    else if b.done then b.(streams := b.streams + [Items(b.events) + if Concluded(b.events) then [] else [Gone]])
    else b.(streams := b.streams + [Items(b.events)], subs := b.subs + {|b.streams|})
  }

  function Finished(b: Buffer): Buffer { b.(done := true, subs := {}) }

  // ---- what a subscriber may see --------------------------------------------------------------

  /** A prefix of all that was published, from the first event on, or a refusal. */
  predicate Faithful(stream: seq<Item>, all: seq<Event>)
  {
    || stream == [Overflowed]
    || stream <= Items(all)
    || (stream != [] && stream[|stream| - 1] == Gone && stream[..|stream| - 1] <= Items(all))
  }

  predicate Good(b: Buffer, all: seq<Event>)
  {
    && (!b.overflowed ==> b.events == all) && b.bytes == Sizes(b.events) <= MAX_BYTES
    && (forall i <- b.subs :: i < |b.streams| && b.streams[i] == Items(all))
    && (forall st <- b.streams :: Faithful(st, all))
  }

  lemma ItemsAppend(es: seq<Event>, e: Event)
    ensures Items(es + [e]) == Items(es) + [Item.Event(e)]
  {}

  lemma FaithfulMore(stream: seq<Item>, all: seq<Event>, e: Event)
    requires Faithful(stream, all)
    ensures Faithful(stream, all + [e])
  {
    ItemsAppend(all, e);
  }

  lemma PublishedGood(b: Buffer, all: seq<Event>, e: Event, lost: set<nat>)
    requires Good(b, all)
    ensures Good(Published(b, e, lost), all + [e])
  {
    var t := Published(b, e, lost);
    ItemsAppend(all, e);
    assert (all + [e])[..|all|] == all;
    forall st | st in t.streams
      ensures Faithful(st, all + [e])
    {
      var i :| 0 <= i < |t.streams| && t.streams[i] == st;
      assert b.streams[i] in b.streams;
      if i !in b.subs - lost { FaithfulMore(b.streams[i], all, e); }
    }
  }

  lemma SubscribedGood(b: Buffer, all: seq<Event>)
    requires Good(b, all)
    ensures Good(Subscribed(b), all)
  {
    var t := Subscribed(b);
    forall st | st in t.streams
      ensures Faithful(st, all)
    {
      var i :| 0 <= i < |t.streams| && t.streams[i] == st;
      if i < |b.streams| {
        assert st == b.streams[i];
      } else if !b.overflowed {
        var got := Items(b.events);
        assert st == got || (st == got + [Gone] && st[..|st| - 1] == got);
      }
    }
  }

  const NOTHING: Buffer := Buffer([], 0, false, {}, false, [])

  // ---- runs ---------------------------------------------------------------------------------

  datatype Call = Publish(event: Event, lost: set<nat>) | Subscribe | Finish

  function After(b: Buffer, calls: seq<Call>): Buffer
  {
    if calls == [] then b else
      var c := After(b, calls[..|calls| - 1]);
      match calls[|calls| - 1]
      case Publish(e, lost) => Published(c, e, lost)
      case Subscribe => Subscribed(c)
      case Finish => Finished(c)
  }

  function AllOf(calls: seq<Call>): seq<Event>
  {
    if calls == [] then [] else
      AllOf(calls[..|calls| - 1]) + if calls[|calls| - 1].Publish? then [calls[|calls| - 1].event] else []
  }

  /**
   Whenever a subscriber joins, and whatever is published before and after, it sees events
   from the first one on without a gap, or is turned away, and the buffer stays within its cap.
   */
  lemma {:induction false} NoGaps(calls: seq<Call>)
    ensures Good(After(NOTHING, calls), AllOf(calls))
  {
    if calls != [] {
      hide Good, Published, Subscribed;
      var rest := calls[..|calls| - 1];
      NoGaps(rest);
      var b := After(NOTHING, rest);
      match calls[|calls| - 1]
      case Publish(e, lost) => PublishedGood(b, AllOf(rest), e, lost);
      case Subscribe => SubscribedGood(b, AllOf(rest));
      case Finish => FinishedGood(b, AllOf(rest));
    }
  }

  lemma FinishedGood(b: Buffer, all: seq<Event>)
    requires Good(b, all)
    ensures Good(Finished(b), all)
  {}

  /** The buffer overflows as soon as all that was published exceeds the cap, and not before. */
  lemma {:induction false} OverflowsIff(calls: seq<Call>)
    ensures After(NOTHING, calls).overflowed <==> Sizes(AllOf(calls)) > 256 * 1024 * 1024
  {
    if calls != [] {
      var rest := calls[..|calls| - 1];
      OverflowsIff(rest);
      NoGaps(rest);
      var b := After(NOTHING, rest);
      if calls[|calls| - 1].Publish? {
        var e := calls[|calls| - 1].event;
        assert AllOf(calls) == AllOf(rest) + [e];
        assert (AllOf(rest) + [e])[..|AllOf(rest)|] == AllOf(rest);
        assert Sizes(AllOf(calls)) == Sizes(AllOf(rest)) + Size(e);
      } else {
        assert AllOf(calls) == AllOf(rest);
      }
    }
  }

  lemma {:induction false} DoneIff(calls: seq<Call>)
    ensures After(NOTHING, calls).done <==> Finish in calls
  {
    if calls != [] {
      var rest := calls[..|calls| - 1];
      assert calls == rest + [calls[|calls| - 1]];
      DoneIff(rest);
    }
  }

  /** From the call after its own on, the subscriber is neither lost nor is the build finished. */
  predicate Listens(calls: seq<Call>, k: nat, id: nat)
  {
    forall j | k < j < |calls| :: !calls[j].Finish? && (calls[j].Publish? ==> id !in calls[j].lost)
  }

  lemma {:induction false} StaysOn(calls: seq<Call>, k: nat, id: nat)
    requires k < |calls| && calls[k].Subscribe? && id == |After(NOTHING, calls[..k]).streams|
    requires !After(NOTHING, calls[..k]).overflowed && !After(NOTHING, calls[..k]).done && Listens(calls, k, id)
    ensures id in After(NOTHING, calls).subs
    decreases |calls|
  {
    var rest := calls[..|calls| - 1];
    if k < |rest| {
      assert rest[..k] == calls[..k];
      StaysOn(rest, k, id);
    } else {
      assert calls[..k] == rest;
    }
  }

  /**
   A subscriber that joins a build under way, within the cap, and keeps up, has all that was
   published, before it joined and since.
   */
  lemma FollowsAll(calls: seq<Call>, k: nat, id: nat)
    requires k < |calls| && calls[k].Subscribe? && id == |After(NOTHING, calls[..k]).streams|
    requires Sizes(AllOf(calls[..k])) <= 256 * 1024 * 1024 && Finish !in calls[..k] && Listens(calls, k, id)
    ensures id < |After(NOTHING, calls).streams| && After(NOTHING, calls).streams[id] == Items(AllOf(calls))
  {
    hide After, AllOf, Listens;
    OverflowsIff(calls[..k]);
    DoneIff(calls[..k]);
    StaysOn(calls, k, id);
    NoGaps(calls);
  }

  // ---- the object -----------------------------------------------------------------------------

  class EventLog {
    var events: seq<Event>
    var bytes: nat
    var overflowed: bool
    var subs: set<nat>
    var done: bool
    var streams: seq<seq<Item>>
    ghost var all: seq<Event>

    ghost function View(): Buffer
      reads this
    {
      Buffer(events, bytes, overflowed, subs, done, streams)
    }

    constructor ()
      ensures Good(View(), all) && all == []
    {
      events, bytes, overflowed, subs, done, streams, all := [], 0, false, {}, false, [], [];
    }

    /** Each subscriber is sent to in turn. */
    method Send(e: Event, lost: set<nat>)
      requires forall i <- subs :: i < |streams|
      modifies this`subs, this`streams
      ensures subs == old(subs) - lost && streams == Sent(old(streams), old(subs) - lost, e)
    {
      var todo := 0;
      var kept: set<nat> := {};
      while todo < |streams|
        invariant todo <= |streams| == |old(streams)| && subs == old(subs)
        invariant kept == set i | i in subs && i < todo && i !in lost
        invariant forall i | 0 <= i < todo :: streams[i] == Sent(old(streams), subs - lost, e)[i]
        invariant forall i | todo <= i < |streams| :: streams[i] == old(streams)[i]
      {
        if todo in subs && todo !in lost {
          streams := streams[todo := streams[todo] + [Item.Event(e)]];
          kept := kept + {todo};
        }
        todo := todo + 1;
      }
      subs := kept;
    }

    method PublishEvent(e: Event, lost: set<nat>)
      requires Good(View(), all)
      modifies this
      ensures Good(View(), all) && all == old(all) + [e] && View() == Published(old(View()), e, lost)
      ensures subs == old(subs) - lost && |streams| == |old(streams)|
      ensures forall i <- subs :: streams[i] == old(streams)[i] + [Item.Event(e)]
      ensures forall i | 0 <= i < |streams| && i !in subs :: streams[i] == old(streams)[i]
      ensures overflowed == (old(overflowed) || old(bytes) + Size(e) > MAX_BYTES)
    {
      PublishedGood(View(), all, e, lost);
      Send(e, lost);
      all := all + [e];
      if overflowed {
        return;
      }
      if bytes + Size(e) > MAX_BYTES {
        overflowed, events, bytes := true, [], 0;
        return;
      }
      bytes := bytes + Size(e);
      events := events + [e];
    }

    method AddSubscriber() returns (id: nat)
      requires Good(View(), all)
      modifies this
      ensures Good(View(), all) && all == old(all) && View() == Subscribed(old(View())) && id == |old(streams)|
      ensures |streams| == id + 1 && streams[..id] == old(streams) && (id in subs <==> !overflowed && !done)
      ensures streams[id] == if overflowed then [Overflowed] else
                Items(all) + if done && !exists e <- all :: e.ExitCode? || e.Error? then [Gone] else []
    {
      SubscribedGood(View(), all);
      id := |streams|;
      if overflowed {
        streams := streams + [[Overflowed]];
      } else if done {
        var concluded := exists e <- events :: e.ExitCode? || e.Error?;
        streams := streams + [Items(events) + if concluded then [] else [Gone]];
      } else {
        streams := streams + [Items(events)];
        subs := subs + {id};
      }
    }

    method Close()
      requires Good(View(), all)
      modifies this
      ensures Good(View(), all) && all == old(all) && View() == Finished(old(View()))
    {
      done, subs := true, {};
    }
  }
}

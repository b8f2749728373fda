/**
 The log-structured chunk cache: S3-FIFO queues whose order is pack order. Chunks
 enter the small queue, re-hit ones move to main, and eviction retires the oldest
 pack, copying only what is hot or pinned.

 `Store` is the state of one open cache together with its directory. `disk` holds
 every pack file opened since, unlinked ones included, because a read handle keeps
 an unlinked pack readable. `trace` is the directory after each file operation, and
 what the map had then.
 */
module ChunkStore {
  import opened Bytes
  import opened Pack

  datatype Option<T> = None | Some(value: T)

  datatype Queue = Small | Main

  /** `index` is the sidecar written at seal. `synced` counts records known to be on disk. */
  datatype File = File(records: seq<Record>, synced: nat, index: Option<seq<Slot>>)

  datatype Writer = Writer(id: nat, len: nat, entries: seq<Slot>)

  /** One S3-FIFO queue: sealed packs oldest first, the pack being written, bytes in both. */
  datatype Side = Side(packs: seq<nat>, active: Option<Writer>, bytes: int)

  datatype Entry = Entry(pack: nat, offset: nat, len: nat, freq: nat)

  type Image = map<nat, File>

  /** One moment in the life of a cache: the files listed and the map at that time. */
  datatype Moment = Moment(files: Image, entries: map<Hash, Entry>)

  const SMALL_FRACTION: nat := 10
  const FREQ_MAX: nat := 3

  datatype Store = Store(
    budget: nat, sealBytes: nat,
    entries: map<Hash, Entry>,
    packs: map<nat, nat>,        // sealed pack -> file size
    small: Side, main: Side,
    ghosts: seq<nat>, ghostSet: set<nat>,
    pins: map<Hash, nat>,
    nextId: nat,
    disk: Image, dir: set<nat>, trace: seq<Moment>)

  function Get(s: Store, q: Queue): Side { if q.Small? then s.small else s.main }

  function Put(s: Store, q: Queue, x: Side): Store { if q.Small? then s.(small := x) else s.(main := x) }

  function Total(s: Store): int { s.small.bytes + s.main.bytes }

  // ---- file operations ----------------------------------------------------------

  function Listed(disk: Image, dir: set<nat>): Image { map id | id in dir && id in disk :: disk[id] }

  function OnDisk(s: Store, disk: Image, dir: set<nat>): Store
  {
    s.(disk := disk, dir := dir, trace := s.trace + [Moment(Listed(disk, dir), s.entries)])
  }

  /** pread through an open handle. */
  function FrameAt(f: File, offset: nat, len: nat): Bytes
  {
    var data := EncodeAll(f.records);
    if offset + len <= |data| then Read(data, offset, len) else []
  }

  function FrameOf(s: Store, h: Hash): Bytes
  {
    if h in s.entries && s.entries[h].pack in s.disk then
      FrameAt(s.disk[s.entries[h].pack], s.entries[h].offset, s.entries[h].len)
    else []
  }

  // ---- operations ---------------------------------------------------------------

  /** The queue has a pack to write to. */
  function Opened(s: Store, q: Queue): Store
  {
    if Get(s, q).active.Some? then s else
      var id := s.nextId;
      OnDisk(Put(s.(nextId := id + 1), q, Get(s, q).(active := Some(Writer(id, 0, [])))),
             s.disk[id := File([], 0, None)], s.dir + {id})
  }

  function Written(s: Store, q: Queue, h: Hash, f: Frame, freq: nat): Store
    requires Get(s, q).active.Some? && Get(s, q).active.value.id in s.disk
  {
    var x := Get(s, q);
    var w := x.active.value;
    var r := Record(h, f);
    var file := s.disk[w.id];
    var w' := Writer(w.id, w.len + r.Size(), w.entries + [Slot(h, w.len + HEADER, |f|)]);
    OnDisk(Put(s.(entries := s.entries[h := Entry(w.id, w.len + HEADER, |f|, freq)]),
               q, x.(active := Some(w'), bytes := x.bytes + r.Size())),
           s.disk[w.id := file.(records := file.records + [r])], s.dir)
  }

  /** fdatasync of a pack. */
  function Flushed(s: Store, id: nat): Store
    requires id in s.disk
  {
    OnDisk(s, s.disk[id := s.disk[id].(synced := |s.disk[id].records|)], s.dir)
  }

  /** Sync the pack, then write its index and queue it. */
  function Sealed(s: Store, q: Queue): Store
  {
    var x := Get(s, q);
    if x.active.None? || x.active.value.id !in s.disk then s else
      var w := x.active.value;
      var t := Flushed(s, w.id);
      OnDisk(Put(t.(packs := s.packs[w.id := w.len]), q, x.(active := None, packs := x.packs + [w.id])),
             t.disk[w.id := t.disk[w.id].(index := Some(w.entries))], s.dir)
  }

  /** An oversized frame is refused, after the pack was opened. */
  function Append(s: Store, q: Queue, h: Hash, f: Bytes, freq: nat): Store
  {
    var s1 := Opened(s, q);
    if |f| >= FRAME_LIMIT || Get(s1, q).active.value.id !in s1.disk then s1 else
      var s2 := Written(s1, q, h, f, freq);
      if Get(s2, q).active.value.len >= s.sealBytes then Sealed(s2, q) else s2
  }

  function GhostKey(h: Hash): nat { FromLe(h[..8]) }

  function GhostPushed(s: Store, h: Hash): Store
  {
    var k := GhostKey(h);
    if k in s.ghostSet then s else s.(ghostSet := s.ghostSet + {k}, ghosts := s.ghosts + [k])
  }

  /** The pack still owns the hash. Promotion hands it to another pack. */
  predicate Owns(s: Store, id: nat, h: Hash) { h in s.entries && s.entries[h].pack == id }

  predicate Cold(s: Store, h: Hash)
    requires h in s.entries
  {
    s.entries[h].freq == 0 && h !in s.pins
  }

  /** One index entry of a pack being retired: dropped if cold, else copied to main. */
  function RetireEntry(s: Store, id: nat, q: Queue, h: Hash): Store
  {
    if !Owns(s, id, h) then s
    else if Cold(s, h) then
      var t := s.(entries := s.entries - {h});
      if q.Small? then GhostPushed(t, h) else t
    else
      var freq := if q.Small? || s.entries[h].freq == 0 then s.entries[h].freq else s.entries[h].freq - 1;
      Append(s.(entries := s.entries - {h}), Main, h, FrameOf(s, h), freq)
  }

  function RetireTo(s: Store, id: nat, q: Queue, slots: seq<Slot>, n: nat): Store
    requires n <= |slots|
  {
    if n == 0 then s else RetireEntry(RetireTo(s, id, q, slots, n - 1), id, q, slots[n - 1].hash)
  }

  /** Sync the pack main is writing. */
  function Synced(s: Store): Store
  {
    if s.main.active.None? || s.main.active.value.id !in s.disk then s else Flushed(s, s.main.active.value.id)
  }

  /** The pack's bytes are given back and its file is unlinked. */
  function Unlinked(s: Store, id: nat, q: Queue): Store
    requires id in s.packs
  {
    var x := Get(s, q);
    OnDisk(Put(s.(packs := s.packs - {id}), q, x.(bytes := x.bytes - s.packs[id])), s.disk, s.dir - {id})
  }

  predicate Promotes(s: Store, id: nat, h: Hash) { Owns(s, id, h) && !Cold(s, h) }

  predicate PromotesTo(s: Store, id: nat, q: Queue, slots: seq<Slot>, n: nat)
    requires n <= |slots|
  {
    n > 0 && (PromotesTo(s, id, q, slots, n - 1) || Promotes(RetireTo(s, id, q, slots, n - 1), id, slots[n - 1].hash))
  }

  /** Survivors are copied and synced before the pack they came from goes away. */
  function Copied(s: Store, id: nat, q: Queue, slots: seq<Slot>): Store
  {
    var t := RetireTo(s, id, q, slots, |slots|);
    if PromotesTo(s, id, q, slots, |slots|) then Synced(t) else t
  }

  /** load_index of a sealed pack. */
  function IndexOf(s: Store, id: nat): seq<Slot>
  {
    if id in s.disk && s.disk[id].index.Some? then s.disk[id].index.value else []
  }

  /** Evict one pack already taken off its queue. */
  function Retire(s: Store, id: nat, q: Queue): Store
    requires id in Copied(s, id, q, IndexOf(s, id)).packs
  {
    Unlinked(Copied(s, id, q, IndexOf(s, id)), id, q)
  }

  function Popped(s: Store, q: Queue): Store
    requires Get(s, q).packs != []
  {
    Put(s, q, Get(s, q).(packs := Get(s, q).packs[1..]))
  }

  // ---- lookups, ghosts and pins -----------------------------------------------------

  /** A hit makes the chunk hotter, up to a cap. */
  function Bumped(s: Store, h: Hash): Store
  {
    if h !in s.entries then s else
      var e := s.entries[h];
      s.(entries := s.entries[h := e.(freq := if e.freq + 1 <= FREQ_MAX then e.freq + 1 else FREQ_MAX)])
  }

  /** The oldest ghosts go, and with each its key, even if it was pushed again later. */
  function Trimmed(s: Store, cap: nat): Store
    decreases |s.ghosts|
  {
    if |s.ghosts| <= cap then s else Trimmed(s.(ghosts := s.ghosts[1..], ghostSet := s.ghostSet - {s.ghosts[0]}), cap)
  }

  function Pinned(pins: map<Hash, nat>, hashes: seq<Hash>): map<Hash, nat>
  {
    if hashes == [] then pins else
      var p, h := Pinned(pins, hashes[..|hashes| - 1]), hashes[|hashes| - 1];
      p[h := if h in p then p[h] + 1 else 1]
  }

  function Unpinned(pins: map<Hash, nat>, hashes: seq<Hash>): map<Hash, nat>
  {
    if hashes == [] then pins else
      var p, h := Unpinned(pins, hashes[..|hashes| - 1]), hashes[|hashes| - 1];
      if h !in p then p else if p[h] <= 1 then p - {h} else p[h := p[h] - 1]
  }
}

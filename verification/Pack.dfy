/**
 Pack files: records of (length, hash, frame) back to back, with a sidecar index
 written at seal. A pack without an index is recovered by scanning.
 */
module Pack {
  import opened Bytes

  /** BLAKE3 of the uncompressed chunk. */
  type Hash = h: Bytes | |h| == 32 witness seq(32, _ => 0)

  /** A zstd frame whose length fits the record header. */
  type Frame = f: Bytes | |f| < FRAME_LIMIT witness []

  const FRAME_LIMIT: nat := 0x1_0000_0000
  const HEADER: nat := 36

  datatype Record = Record(hash: Hash, frame: Frame) {
    function Size(): nat { HEADER + |frame| }

    function Encoded(): (b: Bytes)
      ensures |b| == Size()
    {
      ToLe(|frame|, 4) + hash + frame
    }
  }

  /** An index entry: hash, payload offset, payload length. */
  datatype Slot = Slot(hash: Hash, offset: nat, len: nat)

  function EncodeAll(rs: seq<Record>): Bytes
  {
    if rs == [] then [] else rs[0].Encoded() + EncodeAll(rs[1..])
  }

  /** The index of records that start at `pos`. */
  function SlotsFrom(rs: seq<Record>, pos: nat): seq<Slot>
  {
    if rs == [] then [] else [Slot(rs[0].hash, pos + HEADER, |rs[0].frame|)] + SlotsFrom(rs[1..], pos + rs[0].Size())
  }

  function Slots(rs: seq<Record>): seq<Slot> { SlotsFrom(rs, 0) }

  /** The bytes the records take. */
  function Span(rs: seq<Record>): nat
  {
    if rs == [] then 0 else rs[0].Size() + Span(rs[1..])
  }

  lemma {:induction false} EncodeSpan(rs: seq<Record>)
    ensures |EncodeAll(rs)| == Span(rs)
  {
    if rs != [] { EncodeSpan(rs[1..]); }
  }

  // ---- appending --------------------------------------------------------------

  lemma {:induction false} EncodeAppend(a: seq<Record>, r: Record)
    ensures EncodeAll(a + [r]) == EncodeAll(a) + r.Encoded()
  {
    if a == [] {
      assert a + [r] == [r] && [r][1..] == [];
    } else {
      EncodeAppend(a[1..], r);
      assert (a + [r])[1..] == a[1..] + [r];
      assert a[0].Encoded() + (EncodeAll(a[1..]) + r.Encoded()) == a[0].Encoded() + EncodeAll(a[1..]) + r.Encoded();
    }
  }

  lemma {:induction false} SpanAppend(a: seq<Record>, r: Record)
    ensures Span(a + [r]) == Span(a) + r.Size()
  {
    if a == [] {
      assert a + [r] == [r];
    } else {
      SpanAppend(a[1..], r);
      assert (a + [r])[1..] == a[1..] + [r];
    }
  }

  lemma {:induction false} SlotsAppend(a: seq<Record>, r: Record, pos: nat)
    ensures SlotsFrom(a + [r], pos) == SlotsFrom(a, pos) + [Slot(r.hash, pos + Span(a) + HEADER, |r.frame|)]
  {
    if a == [] {
      assert a + [r] == [r];
    } else {
      SlotsAppend(a[1..], r, pos + a[0].Size());
      assert (a + [r])[1..] == a[1..] + [r];
    }
  }

  /** Growing a pack keeps its bytes and its slots. */
  lemma PackGrows(a: seq<Record>, r: Record)
    ensures EncodeAll(a + [r]) == EncodeAll(a) + r.Encoded()
    ensures Span(a + [r]) == Span(a) + r.Size()
    ensures Slots(a + [r]) == Slots(a) + [Slot(r.hash, Span(a) + HEADER, |r.frame|)]
  {
    EncodeAppend(a, r);
    SpanAppend(a, r);
    SlotsAppend(a, r, 0);
  }

  // ---- reading ----------------------------------------------------------------

  /** pread of `len` bytes. */
  function Read(data: Bytes, offset: nat, len: nat): Bytes
    requires offset + len <= |data|
  {
    data[offset..offset + len]
  }

  lemma {:induction false} SlotsLength(rs: seq<Record>, pos: nat)
    ensures |SlotsFrom(rs, pos)| == |rs|
  {
    if rs != [] { SlotsLength(rs[1..], pos + rs[0].Size()); }
  }

  /** The k-th slot sits behind the records before it. */
  lemma {:induction false} SlotAt(rs: seq<Record>, pos: nat, k: nat)
    requires k < |rs|
    ensures |SlotsFrom(rs, pos)| == |rs|
    ensures SlotsFrom(rs, pos)[k] == Slot(rs[k].hash, pos + Span(rs[..k]) + HEADER, |rs[k].frame|)
  {
    SlotsLength(rs, pos);
    if k == 0 {
      assert rs[..0] == [];
    } else {
      SlotAt(rs[1..], pos + rs[0].Size(), k - 1);
      assert rs[..k][1..] == rs[1..][..k - 1];
    }
  }

  lemma Regroup<T>(a: seq<T>, b: seq<T>, c: seq<T>)
    ensures a + (b + c) == a + b + c
  {}

  lemma {:induction false} EncodeSplit(rs: seq<Record>, k: nat)
    requires k <= |rs|
    ensures EncodeAll(rs) == EncodeAll(rs[..k]) + EncodeAll(rs[k..])
  {
    if k == 0 {
      assert rs[..0] == [] && rs[0..] == rs;
    } else {
      EncodeSplit(rs[1..], k - 1);
      assert rs[..k][1..] == rs[1..][..k - 1] && rs[k..] == rs[1..][k - 1..];
      var a, b, c := rs[0].Encoded(), EncodeAll(rs[1..][..k - 1]), EncodeAll(rs[k..]);
      assert EncodeAll(rs[..k]) == a + b by { assert rs[..k][0] == rs[0]; }
      hide EncodeAll;
      Regroup(a, b, c);
    }
  }

  /** A slot reads back exactly the frame of its record. */
  lemma SlotReads(rs: seq<Record>, k: nat)
    requires k < |rs|
    ensures |Slots(rs)| == |rs|
    ensures Slots(rs)[k].hash == rs[k].hash
    ensures Slots(rs)[k].offset + Slots(rs)[k].len <= |EncodeAll(rs)|
    ensures Read(EncodeAll(rs), Slots(rs)[k].offset, Slots(rs)[k].len) == rs[k].frame
  {
    SlotAt(rs, 0, k);
    EncodeSpan(rs[..k]);
    EncodeSplit(rs, k);
    var before, after := EncodeAll(rs[..k]), EncodeAll(rs[k..][1..]);
    var r := rs[k];
    assert rs[k..][0] == r;
    assert EncodeAll(rs) == before + (r.Encoded() + after);
    var o := |before| + HEADER;
    assert (before + (r.Encoded() + after))[o..o + |r.frame|] == r.frame;
  }

  // ---- recovery ---------------------------------------------------------------

  /** The records up to the first torn or unverified one. */
  function Intact(ok: (Hash, Bytes) -> bool, d: Bytes): seq<Record>
    decreases |d|
  {
    if |d| < HEADER then [] else
      var len := FromLe(d[..4]);
      if HEADER + len > |d| then [] else
        var hash, frame := d[4..HEADER], d[HEADER..HEADER + len];
        if !ok(hash, frame) then [] else
          LeInverse(d[..4]);
          Pow256Values();
          [Record(hash, frame)] + Intact(ok, d[HEADER + len..])
  }

  /** Only records whose frame verifies come back, and they are a prefix of the file. */
  lemma {:induction false} IntactSound(ok: (Hash, Bytes) -> bool, d: Bytes)
    ensures forall r <- Intact(ok, d) :: ok(r.hash, r.frame)
    ensures EncodeAll(Intact(ok, d)) <= d
    decreases |d|
  {
    var rs := Intact(ok, d);
    if rs != [] {
      var len := FromLe(d[..4]);
      var rest := d[HEADER + len..];
      LeInverse(d[..4]);
      assert rs[0].Encoded() == d[..HEADER + len];
      assert rs[1..] == Intact(ok, rest);
      IntactSound(ok, rest);
      assert d == d[..HEADER + len] + rest;
    }
  }

  /** The first record of a file is recovered exactly when it verifies. */
  lemma IntactHead(ok: (Hash, Bytes) -> bool, r: Record, rest: Bytes)
    ensures Intact(ok, r.Encoded() + rest) == if ok(r.hash, r.frame) then [r] + Intact(ok, rest) else []
  {
    var d := r.Encoded() + rest;
    assert d[..4] == ToLe(|r.frame|, 4);
    Pow256Values();
    LeRoundTrip(|r.frame|, 4);
    assert d[4..HEADER] == r.hash;
    assert d[HEADER..HEADER + |r.frame|] == r.frame;
    assert d[HEADER + |r.frame|..] == rest;
  }

  /** How many leading records verify. */
  function Verified(ok: (Hash, Bytes) -> bool, rs: seq<Record>): (n: nat)
    ensures n <= |rs|
  {
    if rs == [] || !ok(rs[0].hash, rs[0].frame) then 0 else 1 + Verified(ok, rs[1..])
  }

  /** What recovery keeps of written records, whatever bytes follow them. */
  lemma {:induction false} IntactKeeps(ok: (Hash, Bytes) -> bool, rs: seq<Record>, tail: Bytes)
    ensures rs[..Verified(ok, rs)] <= Intact(ok, EncodeAll(rs) + tail)
    ensures Verified(ok, rs) < |rs| ==> Intact(ok, EncodeAll(rs) + tail) == rs[..Verified(ok, rs)]
  {
    if rs != [] {
      var rest := EncodeAll(rs[1..]) + tail;
      assert EncodeAll(rs) + tail == rs[0].Encoded() + rest;
      IntactHead(ok, rs[0], rest);
      if ok(rs[0].hash, rs[0].frame) {
        IntactKeeps(ok, rs[1..], tail);
        ConsPrefix(rs, Verified(ok, rs[1..]), Intact(ok, rest));
      }
    }
  }

  lemma ConsPrefix(rs: seq<Record>, n: nat, got: seq<Record>)
    requires rs != [] && n <= |rs| - 1
    ensures rs[1..][..n] <= got ==> rs[..n + 1] <= [rs[0]] + got
    ensures rs[1..][..n] == got ==> rs[..n + 1] == [rs[0]] + got
  {
    assert rs[..n + 1] == [rs[0]] + rs[1..][..n];
  }

  lemma {:induction false} AllVerified(ok: (Hash, Bytes) -> bool, rs: seq<Record>)
    ensures Verified(ok, rs) == |rs| <==> forall r <- rs :: ok(r.hash, r.frame)
  {
    if rs != [] {
      AllVerified(ok, rs[1..]);
      assert rs == [rs[0]] + rs[1..];
    }
  }

  lemma {:induction false} VerifiedCounts(ok: (Hash, Bytes) -> bool, rs: seq<Record>, k: nat)
    requires k < |rs|
    ensures k < Verified(ok, rs) <==> forall j | 0 <= j <= k :: ok(rs[j].hash, rs[j].frame)
  {
    if k > 0 {
      VerifiedCounts(ok, rs[1..], k - 1);
      assert forall j | 0 < j <= k :: rs[j] == rs[1..][j - 1];
    }
  }

  /** With nothing behind them, recovery keeps the records before the first bad one. */
  lemma {:induction false} IntactAll(ok: (Hash, Bytes) -> bool, rs: seq<Record>)
    ensures Intact(ok, EncodeAll(rs) + []) == rs[..Verified(ok, rs)]
  {
    if rs != [] {
      var rest := EncodeAll(rs[1..]) + [];
      assert EncodeAll(rs) + [] == rs[0].Encoded() + rest;
      IntactHead(ok, rs[0], rest);
      if ok(rs[0].hash, rs[0].frame) {
        IntactAll(ok, rs[1..]);
        ConsPrefix(rs, Verified(ok, rs[1..]), Intact(ok, rest));
      }
    }
  }

  /**
   Recovery keeps every synced record, whatever the crash left behind it, exactly
   when every one of them verifies: a single bad frame hides the records after it.
   */
  lemma RecoveryKeepsAllIff(ok: (Hash, Bytes) -> bool, rs: seq<Record>)
    ensures (forall tail: Bytes :: rs <= Intact(ok, EncodeAll(rs) + tail)) <==> (forall r <- rs :: ok(r.hash, r.frame))
  {
    AllVerified(ok, rs);
    var n := Verified(ok, rs);
    forall tail: Bytes
      ensures rs <= Intact(ok, EncodeAll(rs) + tail) <==> n == |rs|
    {
      IntactKeeps(ok, rs, tail);
      assert n == |rs| ==> rs[..n] == rs;
      assert n < |rs| ==> |rs[..n]| < |rs|;
    }
    assert n == |rs| || !(rs <= Intact(ok, EncodeAll(rs) + []));
  }

  /** A good chunk, synced after one that does not verify, does not survive a crash. */
  lemma BadFrameHidesGood(ok: (Hash, Bytes) -> bool, bad: Record, good: Record, tail: Bytes)
    requires !ok(bad.hash, bad.frame) && ok(good.hash, good.frame)
    ensures Intact(ok, EncodeAll([bad, good]) + tail) == []
  {
    IntactKeeps(ok, [bad, good], tail);
  }

  lemma RecordBytes(d: Bytes, len: nat)
    requires HEADER + len <= |d| && len == FromLe(d[..4])
    ensures ToLe(len, 4) + d[4..HEADER] + d[HEADER..HEADER + len] == d[..HEADER + len]
  {
    hide FromLe, ToLe;
    LeInverse(d[..4]);
  }

  lemma IntactFirst(ok: (Hash, Bytes) -> bool, d: Bytes)
    requires Intact(ok, d) != []
    ensures Intact(ok, d)[0].Size() <= |d| && d[..Intact(ok, d)[0].Size()] == Intact(ok, d)[0].Encoded()
    ensures Intact(ok, d) == [Intact(ok, d)[0]] + Intact(ok, d[Intact(ok, d)[0].Size()..])
  {
    hide FromLe, ToLe;
    RecordBytes(d, FromLe(d[..4]));
  }

  /** What the header at `pos` says about the records from there on. */
  lemma ScanHeader(ok: (Hash, Bytes) -> bool, data: Bytes, pos: nat, len: nat)
    requires pos + HEADER <= |data| && len == FromLe(data[pos..pos + HEADER][..4])
    ensures pos + HEADER + len > |data| ==> Intact(ok, data[pos..]) == []
    ensures pos + HEADER + len <= |data| ==>
              var hash, frame := data[pos..pos + HEADER][4..], data[pos + HEADER..pos + HEADER + len];
              if ok(hash, frame) then
                Intact(ok, data[pos..]) != [] && Intact(ok, data[pos..])[0].hash == hash
                  && Intact(ok, data[pos..])[0].frame == frame
              else
                Intact(ok, data[pos..]) == []
  {
    var rest := data[pos..];
    assert data[pos..pos + HEADER][..4] == rest[..4];
    assert data[pos..pos + HEADER][4..] == rest[4..HEADER];
    if pos + HEADER + len <= |data| {
      assert data[pos + HEADER..pos + HEADER + len] == rest[HEADER..HEADER + len];
    }
  }

  lemma Slices<T>(d: seq<T>, pos: nat, n: nat)
    requires pos + n <= |d|
    ensures d[pos..][..n] == d[pos..pos + n] && d[pos..][n..] == d[pos + n..]
  {}

  lemma MoveFirst<T>(a: seq<T>, x: T, b: seq<T>)
    ensures a + ([x] + b) == a + [x] + b
  {}

  lemma ScanRest(ok: (Hash, Bytes) -> bool, data: Bytes, pos: nat, done: seq<Record>, r: Record)
    requires pos <= |data| && Intact(ok, data[pos..]) != [] && r == Intact(ok, data[pos..])[0]
    ensures pos + r.Size() <= |data| && data[pos..pos + r.Size()] == r.Encoded()
    ensures done + Intact(ok, data[pos..]) == done + [r] + Intact(ok, data[pos + r.Size()..])
  {
    IntactFirst(ok, data[pos..]);
    Slices(data, pos, r.Size());
    MoveFirst(done, r, Intact(ok, data[pos..][r.Size()..]));
  }

  lemma ScanDone(data: Bytes, pos: nat, done: seq<Record>, r: Record)
    requires pos + r.Size() <= |data| && data[..pos] == EncodeAll(done) && data[pos..pos + r.Size()] == r.Encoded()
    ensures data[..pos + r.Size()] == EncodeAll(done + [r])
    ensures Slots(done + [r]) == Slots(done) + [Slot(r.hash, pos + HEADER, |r.frame|)]
  {
    PackGrows(done, r);
    EncodeSpan(done);
    assert data[..pos + r.Size()] == data[..pos] + data[pos..pos + r.Size()];
  }

  /** The scan stands at `pos`, behind the records `done`. */
  ghost predicate Scanned(ok: (Hash, Bytes) -> bool, data: Bytes, pos: nat, done: seq<Record>, entries: seq<Slot>)
  {
    && pos <= |data| && data[..pos] == EncodeAll(done)
    && done + Intact(ok, data[pos..]) == Intact(ok, data)
    && entries == Slots(done)
  }

  lemma ScanStart(ok: (Hash, Bytes) -> bool, data: Bytes)
    ensures Scanned(ok, data, 0, [], [])
  {
    assert data[0..] == data;
  }

  lemma ScanOn(ok: (Hash, Bytes) -> bool, data: Bytes, pos: nat, done: seq<Record>, entries: seq<Slot>, r: Record)
    requires Scanned(ok, data, pos, done, entries)
    requires Intact(ok, data[pos..]) != [] && r == Intact(ok, data[pos..])[0]
    ensures Scanned(ok, data, pos + r.Size(), done + [r], entries + [Slot(r.hash, pos + HEADER, |r.frame|)])
  {
    ScanRest(ok, data, pos, done, r);
    ScanDone(data, pos, done, r);
  }

  lemma ScanEnd(ok: (Hash, Bytes) -> bool, data: Bytes, pos: nat, done: seq<Record>, entries: seq<Slot>)
    requires Scanned(ok, data, pos, done, entries) && Intact(ok, data[pos..]) == []
    ensures entries == Slots(Intact(ok, data)) && data[..pos] == EncodeAll(Intact(ok, data))
  {
    assert done + [] == done;
  }

  lemma ScanShort(ok: (Hash, Bytes) -> bool, data: Bytes, pos: nat)
    requires pos <= |data| < pos + HEADER
    ensures Intact(ok, data[pos..]) == []
  {}

  /** Scan an unsealed pack, truncate it behind the last intact record, index the rest. */
  method Recover(ok: (Hash, Bytes) -> bool, data: Bytes) returns (entries: seq<Slot>, kept: Bytes)
    ensures entries == Slots(Intact(ok, data))
    ensures kept == EncodeAll(Intact(ok, data))
  {
    hide Intact, EncodeAll, SlotsFrom;
    entries := [];
    var pos := 0;
    ghost var done: seq<Record> := [];
    ScanStart(ok, data);
    while pos + HEADER <= |data|
      invariant Scanned(ok, data, pos, done, entries)
      decreases |data| - pos
    {
      var header := data[pos..pos + HEADER];
      var len := FromLe(header[..4]);
      ScanHeader(ok, data, pos, len);
      if pos + HEADER + len > |data| { break; }
      var hash := header[4..];
      var frame := data[pos + HEADER..pos + HEADER + len];
      if !ok(hash, frame) { break; }
      ghost var r := Intact(ok, data[pos..])[0];
      ScanOn(ok, data, pos, done, entries, r);
      entries := entries + [Slot(hash, pos + HEADER, len)];
      done := done + [r];
      pos := pos + HEADER + len;
    }
    if pos + HEADER > |data| { ScanShort(ok, data, pos); }
    ScanEnd(ok, data, pos, done, entries);
    kept := data[..pos];
  }

  // ---- the sidecar index --------------------------------------------------------

  const SLOT_BYTES: nat := 44
  const OFFSET_LIMIT: nat := 0x1_0000_0000_0000_0000

  function EncodeSlot(s: Slot): (b: Bytes)
    ensures |b| == SLOT_BYTES
  {
    s.hash + ToLe(s.offset, 8) + ToLe(s.len, 4)
  }

  function EncodeIndex(slots: seq<Slot>): Bytes
  {
    if slots == [] then [] else EncodeSlot(slots[0]) + EncodeIndex(slots[1..])
  }

  /** Whole 44-byte entries. A trailing partial one is ignored. */
  function DecodeIndex(b: Bytes): seq<Slot>
  {
    if |b| < SLOT_BYTES then [] else
      [Slot(b[..32], FromLe(b[32..40]), FromLe(b[40..44]))] + DecodeIndex(b[SLOT_BYTES..])
  }

  lemma {:induction false} IndexRoundTrip(slots: seq<Slot>)
    requires forall s <- slots :: s.offset < OFFSET_LIMIT && s.len < FRAME_LIMIT
    ensures DecodeIndex(EncodeIndex(slots)) == slots
  {
    if slots != [] {
      var s, b := slots[0], EncodeIndex(slots);
      assert s in slots;
      Pow256Values();
      LeRoundTrip(s.offset, 8);
      LeRoundTrip(s.len, 4);
      assert b[..32] == s.hash;
      assert b[32..40] == ToLe(s.offset, 8);
      assert b[40..44] == ToLe(s.len, 4);
      assert b[SLOT_BYTES..] == EncodeIndex(slots[1..]);
      IndexRoundTrip(slots[1..]);
    }
  }
}

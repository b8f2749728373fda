/**
 Cutting an archive into chunks: content-defined cuts within each file body, framing and
 small files coalesced in between. The cuts of a body do not depend on the parts it
 arrived in.
 */
module Chunker {
  import opened Bytes
  import opened Nar
  import opened NarPack

  const CDC_MAX: nat := 256 * 1024
  const MAX_CHUNK_BYTES: nat := 1024 * 1024

  /** Where the first chunk of a window ends. It looks no further than the largest chunk. */
  ghost predicate Cuts(cut: Bytes -> nat)
  {
    && (forall d: Bytes | d != [] :: 1 <= cut(d) <= |d| && cut(d) <= CDC_MAX)
    && (forall d: Bytes | |d| >= CDC_MAX :: cut(d) == cut(d[..CDC_MAX]))
  }

  /** cdc_split: the cuts of a whole body. */
  ghost function Split(cut: Bytes -> nat, d: Bytes): seq<Bytes>
    requires Cuts(cut)
    decreases |d|
  {
    if d == [] then [] else
      assert 1 <= cut(d) <= |d|;
      [d[..cut(d)]] + Split(cut, d[cut(d)..])
  }

  /** A cut within a window of the largest chunk size is final. */
  lemma CutFinal(cut: Bytes -> nat, w: Bytes, more: Bytes)
    requires Cuts(cut) && |w| >= CDC_MAX
    ensures 1 <= cut(w) <= |w| && Split(cut, w + more) == [w[..cut(w)]] + Split(cut, w[cut(w)..] + more)
  {
    var d := w + more;
    assert d[..CDC_MAX] == w[..CDC_MAX];
    assert cut(d) == cut(w);
    assert w != [];
    assert d[..cut(w)] == w[..cut(w)] && d[cut(w)..] == w[cut(w)..] + more;
  }

  /** `emit`: what is too large goes out in pieces of the largest size. */
  function Bounded(d: Bytes): (ps: seq<Bytes>)
    ensures forall p <- ps :: |p| <= MAX_CHUNK_BYTES
    decreases |d|
  {
    if |d| <= MAX_CHUNK_BYTES then [d] else [d[..MAX_CHUNK_BYTES]] + Bounded(d[MAX_CHUNK_BYTES..])
  }

  // ---- the chunk list of an archive ---------------------------------------------------------

  datatype Cutting = Cutting(lit: Bytes, chunks: seq<Bytes>)

  function Ended(c: Cutting): Cutting { if c.lit == [] then c else Cutting([], c.chunks + Bounded(c.lit)) }

  ghost function Fed(cut: Bytes -> nat, c: Cutting, s: Seg): Cutting
    requires Cuts(cut)
  {
    match s
    case Lit(d) =>
      var m := c.(lit := c.lit + d);
      if |m.lit| >= CDC_MAX then Ended(m) else m
    case Whole(d) => Cutting([], Ended(c).chunks + Split(cut, d))
  }

  ghost function FedAll(cut: Bytes -> nat, segs: seq<Seg>): Cutting
    requires Cuts(cut)
  {
    if segs == [] then Cutting([], []) else Fed(cut, FedAll(cut, segs[..|segs| - 1]), segs[|segs| - 1])
  }

  ghost function ChunkList(cut: Bytes -> nat, n: Node): seq<Bytes>
    requires Cuts(cut) && Packable(n)
  {
    Ended(FedAll(cut, Segments(n))).chunks
  }

  // ---- it concatenates to the archive --------------------------------------------------------

  function Cat(chunks: seq<Bytes>): Bytes { if chunks == [] then [] else chunks[0] + Cat(chunks[1..]) }

  lemma {:induction false} CatAppend(a: seq<Bytes>, b: seq<Bytes>)
    ensures Cat(a + b) == Cat(a) + Cat(b)
  {
    if a == [] {
      assert a + b == b;
    } else {
      assert (a + b)[1..] == a[1..] + b;
      CatAppend(a[1..], b);
    }
  }

  lemma {:induction false} CatBounded(d: Bytes)
    ensures Cat(Bounded(d)) == d
    decreases |d|
  {
    if |d| <= MAX_CHUNK_BYTES {
      assert [d][1..] == [];
    } else {
      CatBounded(d[MAX_CHUNK_BYTES..]);
      assert Bounded(d)[1..] == Bounded(d[MAX_CHUNK_BYTES..]);
    }
  }

  lemma {:induction false} CatSplit(cut: Bytes -> nat, d: Bytes)
    requires Cuts(cut)
    ensures Cat(Split(cut, d)) == d && forall p <- Split(cut, d) :: 1 <= |p| <= CDC_MAX
    decreases |d|
  {
    if d != [] {
      assert 1 <= cut(d) <= |d|;
      CatSplit(cut, d[cut(d)..]);
      assert Split(cut, d)[1..] == Split(cut, d[cut(d)..]);
    }
  }

  function CutText(c: Cutting): Bytes { Cat(c.chunks) + c.lit }

  lemma EndedText(c: Cutting)
    ensures CutText(Ended(c)) == CutText(c) == Cat(Ended(c).chunks)
  {
    CatAppend(c.chunks, Bounded(c.lit));
    CatBounded(c.lit);
    assert Cat(c.chunks) + [] == Cat(c.chunks);
  }

  lemma FedText(cut: Bytes -> nat, c: Cutting, s: Seg)
    requires Cuts(cut)
    ensures CutText(Fed(cut, c, s)) == CutText(c) + s.data
  {
    hide Cuts;
    match s
    case Lit(d) =>
      EndedText(c.(lit := c.lit + d));
    case Whole(d) =>
      EndedText(c);
      CatSplit(cut, d);
      CatAppend(Ended(c).chunks, Split(cut, d));
  }

  lemma {:induction false} FedAllText(cut: Bytes -> nat, segs: seq<Seg>)
    requires Cuts(cut)
    ensures CutText(FedAll(cut, segs)) == TextOf(segs)
  {
    hide Cuts;
    if segs != [] {
      FedAllText(cut, segs[..|segs| - 1]);
      FedText(cut, FedAll(cut, segs[..|segs| - 1]), segs[|segs| - 1]);
    }
  }

  predicate Small(chunks: seq<Bytes>) { forall p <- chunks :: |p| <= MAX_CHUNK_BYTES }

  lemma {:induction false} FedAllSmall(cut: Bytes -> nat, segs: seq<Seg>)
    requires Cuts(cut)
    ensures Small(FedAll(cut, segs).chunks)
  {
    hide Cuts, Bounded;
    if segs != [] {
      var s := segs[|segs| - 1];
      FedAllSmall(cut, segs[..|segs| - 1]);
      if s.Whole? { CatSplit(cut, s.data); }
    }
  }

  /** The chunks of a tree concatenate to its archive, each within bounds. */
  lemma ChunksAreTheArchive(cut: Bytes -> nat, n: Node)
    requires Cuts(cut) && Packable(n)
    ensures Cat(ChunkList(cut, n)) == Archive(n) && Small(ChunkList(cut, n))
  {
    hide Cuts, Segments, Archive;
    var c := FedAll(cut, Segments(n));
    EndedText(c);
    FedAllText(cut, Segments(n));
    FedAllSmall(cut, Segments(n));
    SegmentsText(n);
  }

  // ---- the chunker -----------------------------------------------------------------------------

  /** What is out and what is held make up the cuts of the body, whatever follows. */
  ghost predicate CutSoFar(cut: Bytes -> nat, part: Bytes, done: seq<Bytes>, held: Bytes)
    requires Cuts(cut)
  {
    forall more: Bytes :: Split(cut, part + more) == done + Split(cut, held + more)
  }

  lemma CutStart(cut: Bytes -> nat)
    requires Cuts(cut)
    ensures CutSoFar(cut, [], [], [])
  {
    hide Cuts;
    forall more: Bytes
      ensures Split(cut, [] + more) == [] + Split(cut, [] + more)
    {}
  }

  lemma CutMore(cut: Bytes -> nat, part: Bytes, done: seq<Bytes>, held: Bytes, d: Bytes)
    requires Cuts(cut) && CutSoFar(cut, part, done, held)
    ensures CutSoFar(cut, part + d, done, held + d)
  {
    hide Cuts;
    forall more: Bytes
      ensures Split(cut, part + d + more) == done + Split(cut, held + d + more)
    {
      assert part + d + more == part + (d + more) && held + d + more == held + (d + more);
    }
  }

  lemma CutOne(cut: Bytes -> nat, part: Bytes, done: seq<Bytes>, held: Bytes)
    requires Cuts(cut) && CutSoFar(cut, part, done, held) && |held| >= CDC_MAX
    ensures 1 <= cut(held) <= |held| && cut(held) <= CDC_MAX
    ensures CutSoFar(cut, part, done + [held[..cut(held)]], held[cut(held)..])
  {
    assert held != [];
    CutFinal(cut, held, []);
    hide Cuts;
    forall more: Bytes
      ensures Split(cut, part + more) == done + [held[..cut(held)]] + Split(cut, held[cut(held)..] + more)
    {
      CutFinal(cut, held, more);
    }
  }

  lemma CutAll(cut: Bytes -> nat, part: Bytes, done: seq<Bytes>, held: Bytes)
    requires Cuts(cut) && CutSoFar(cut, part, done, held)
    ensures Split(cut, part) == done + Split(cut, held)
  {
    hide Cuts;
    assert part + [] == part && held + [] == held;
  }

  class Chunking {
    const cut: Bytes -> nat
    /** Framing and small files awaiting coalesced emission. */
    var lit: Bytes
    /** What is held of a file body streamed in parts. */
    var body: Bytes
    var chunks: seq<Bytes>
    /** The cuts of the open body that are out. */
    ghost var done: seq<Bytes>

    /** The state after pieces that join up to `j`. */
    ghost predicate Tracks(j: Joined)
      requires Cuts(cut)
      reads this
    {
      var c := FedAll(cut, j.segs);
      if j.part == [] then lit == c.lit && body == [] && chunks == c.chunks
      else lit == [] && |body| < CDC_MAX && chunks == Ended(c).chunks + done && CutSoFar(cut, j.part, done, body)
    }

    constructor (cut: Bytes -> nat)
      requires Cuts(cut)
      ensures this.cut == cut && Tracks(Joined([], []))
    {
      this.cut, lit, body, chunks, done := cut, [], [], [], [];
    }

    method Emit(data: Bytes)
      modifies this`chunks
      ensures chunks == old(chunks) + Bounded(data)
    {
      var rest := data;
      while |rest| > MAX_CHUNK_BYTES
        invariant chunks + Bounded(rest) == old(chunks) + Bounded(data)
        decreases |rest|
      {
        chunks := chunks + [rest[..MAX_CHUNK_BYTES]];
        rest := rest[MAX_CHUNK_BYTES..];
      }
      chunks := chunks + [rest];
    }

    method FlushLit()
      modifies this`chunks, this`lit
      ensures Cutting(lit, chunks) == Ended(Cutting(old(lit), old(chunks)))
    {
      if lit != [] {
        Emit(lit);
        lit := [];
      }
    }

    method SplitOut(data: Bytes)
      requires Cuts(cut)
      modifies this`chunks
      ensures chunks == old(chunks) + Split(cut, data)
    {
      hide Cuts;
      var rest := data;
      while rest != []
        invariant chunks + Split(cut, rest) == old(chunks) + Split(cut, data)
        decreases |rest|
      {
        FirstCut(cut, rest);
        var n := cut(rest);
        Emit(rest[..n]);
        rest := rest[n..];
      }
    }

    /** Part of a body, the parts before it being `part`. */
    method PushPart(data: Bytes, last: bool, ghost part: Bytes, ghost base: seq<Bytes>)
      requires Cuts(cut) && CutSoFar(cut, part, done, body) && chunks == base + done
      modifies this`chunks, this`body, this`done
      ensures last ==> body == [] && chunks == base + Split(cut, part + data)
      ensures !last ==> |body| < CDC_MAX && chunks == base + done && CutSoFar(cut, part + data, done, body)
    {
      hide Cuts, Split, CutSoFar;
      CutMore(cut, part, done, body, data);
      body := body + data;
      var start := 0;
      while |body| - start >= CDC_MAX
        invariant start <= |body| && chunks == base + done && CutSoFar(cut, part + data, done, body[start..])
      {
        CutOne(cut, part + data, done, body[start..]);
        var n := cut(body[start..]);
        var piece := body[start..][..n];
        Emit(piece);
        done := done + [piece];
        assert body[start..][n..] == body[start + n..];
        start := start + n;
      }
      if last {
        CutAll(cut, part + data, done, body[start..]);
        SplitOut(body[start..]);
        body := [];
      } else {
        body := body[start..];
      }
    }

    method PushFraming(d: Bytes, ghost j: Joined)
      requires Cuts(cut) && Tracks(j) && d != [] && j.part == []
      modifies this
      ensures Tracks(JoinOne(j, Framing(d)))
    {
      hide Cuts, Split, CutSoFar;
      SegsAppend(cut, j.segs, Lit(d));
      lit := lit + d;
      if |lit| >= CDC_MAX {
        FlushLit();
      }
    }

    method PushBody(d: Bytes, last: bool, ghost j: Joined)
      requires Cuts(cut) && Tracks(j) && d != []
      modifies this
      ensures Tracks(JoinOne(j, Part(d, last)))
    {
      hide Cuts, Split, CutSoFar;
      ghost var c := FedAll(cut, j.segs);
      FlushLit();
      SegsAppend(cut, j.segs, Whole(j.part + d));
      if j.part == [] {
        CutStart(cut);
        done := [];
      }
      hide FedAll;
      if body == [] && last {
        CutMore(cut, j.part, done, body, d);
        CutAll(cut, j.part + d, done, body + d);
        assert body + d == d;
        SplitOut(d);
      } else {
        PushPart(d, last, j.part, Ended(c).chunks);
      }
    }

    method Push(p: Piece, ghost j: Joined)
      requires Cuts(cut) && Tracks(j) && p.data != [] && (p.Framing? ==> j.part == [])
      modifies this
      ensures Tracks(JoinOne(j, p))
    {
      match p {
        case Framing(d) => PushFraming(d, j);
        case Part(d, last) => PushBody(d, last, j);
      }
    }
  }

  lemma SegsAppend(cut: Bytes -> nat, segs: seq<Seg>, s: Seg)
    requires Cuts(cut)
    ensures FedAll(cut, segs + [s]) == Fed(cut, FedAll(cut, segs), s)
  {
    assert (segs + [s])[..|segs|] == segs;
  }

  lemma FirstCut(cut: Bytes -> nat, d: Bytes)
    requires Cuts(cut) && d != []
    ensures 1 <= cut(d) <= |d| && cut(d) <= CDC_MAX && Split(cut, d) == [d[..cut(d)]] + Split(cut, d[cut(d)..])
  {}

  /**
   Chunk a store path: every piece of its archive is pushed as it is handed out. The
   result is the same for every pattern of reads.
   */
  method ChunkStorePath(cut: Bytes -> nat, n: Node) returns (ok: bool, chunks: seq<Bytes>)
    requires Cuts(cut)
    ensures ok == Packable(n)
    ensures ok ==> chunks == ChunkList(cut, n) && Cat(chunks) == Archive(n) && Small(chunks)
  {
    hide Cuts, Segments, Archive, FedAll, Bounded, CutSoFar, Cat, Small;
    var pieces;
    ok, pieces := Pack(n);
    chunks := [];
    if ok {
      var c := new Chunking(cut);
      for i := 0 to |pieces|
        invariant c.cut == cut && c.Tracks(Join(pieces[..i]))
      {
        assert pieces[..i + 1] == pieces[..i] + [pieces[i]];
        JoinAppend(pieces[..i], pieces[i]);
        c.Push(pieces[i], Join(pieces[..i]));
      }
      assert pieces[..|pieces|] == pieces;
      c.FlushLit();
      chunks := c.chunks;
      ChunksAreTheArchive(cut, n);
    }
  }
}

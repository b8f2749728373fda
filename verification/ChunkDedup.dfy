/**
 What chunking is for: equal files give equal chunks, whatever tree they are in and whatever
 stands around them.
 */
module ChunkDedup {
  import opened Bytes
  import opened Nar
  import opened NarPack
  import opened Chunker

  /** Some file of the tree has this body. */
  predicate HasBody(n: Node, body: Bytes)
    requires Packable(n)
  {
    match n
    case Dir(entries) => exists e <- entries :: HasBody(e.node, body)
    case Symlink(_) => false
    case File(_, _, _) => Body(n) == body
  }

  // ---- large bodies are handed out whole ----------------------------------------------------

  /** Segments were added, and of those the whole bodies are these. */
  ghost predicate Adds(o: Out, p: Out, bodies: iset<Bytes>)
  {
    && o.segs <= p.segs
    && forall b: Bytes :: Whole(b) in p.segs <==> Whole(b) in o.segs || b in bodies
  }

  lemma AddsTrans(o: Out, p: Out, q: Out, a: iset<Bytes>, b: iset<Bytes>)
    requires Adds(o, p, a) && Adds(p, q, b)
    ensures Adds(o, q, a + b)
  {}

  lemma FlushedAdds(o: Out)
    ensures Adds(o, Flushed(o), iset{})
  {
    forall b: Bytes
      ensures Whole(b) in Flushed(o).segs <==> Whole(b) in o.segs
    {
      if Whole(b) in o.segs {
        var i :| 0 <= i < |o.segs| && o.segs[i] == Whole(b);
        assert Flushed(o).segs[i] == Whole(b);
      }
    }
  }

  lemma PutStrAdds(o: Out, s: Bytes)
    ensures Adds(o, PutStr(o, s), iset{})
  {
    FlushedAdds(Put(o, Str(s)));
  }

  lemma PutBodyAdds(o: Out, body: Bytes)
    ensures Adds(o, PutBody(o, body), if |body| >= 16 * 1024 then iset{body} else iset{})
  {
    hide ToLe, Padding;
    var p := Put(o, ToLe(|body|, 8));
    FlushedAdds(p);
    FlushedAdds(Put(p, body + Padding(|body|)));
    if |body| >= 16 * 1024 {
      var q := PutBody(o, body);
      assert q.segs == Flushed(p).segs + [Whole(body)];
      forall b: Bytes
        ensures Whole(b) in q.segs <==> Whole(b) in Flushed(p).segs || b == body
      {
        if Whole(b) in Flushed(p).segs {
          var i :| 0 <= i < |Flushed(p).segs| && Flushed(p).segs[i] == Whole(b);
          assert q.segs[i] == Whole(b);
        }
        assert q.segs[|q.segs| - 1] == Whole(body);
      }
    }
  }

  ghost function Bodies(n: Node): iset<Bytes>
    requires Packable(n)
  {
    iset b: Bytes | HasBody(n, b) && |b| >= 16 * 1024
  }

  ghost function BodiesOf(entries: seq<Entry>): iset<Bytes>
    requires forall e <- entries :: Packable(e.node)
  {
    iset b: Bytes | |b| >= 16 * 1024 && exists e <- entries :: HasBody(e.node, b)
  }

  lemma Same(o: Out, p: Out, a: iset<Bytes>, b: iset<Bytes>)
    requires Adds(o, p, a) && forall x: Bytes :: x in a <==> x in b
    ensures Adds(o, p, b)
  {}

  lemma StrOn(o: Out, p: Out, s: Bytes, bodies: iset<Bytes>)
    requires Adds(o, p, bodies)
    ensures Adds(o, PutStr(p, s), bodies)
  {
    hide PutStr;
    PutStrAdds(p, s);
  }

  lemma NothingAdded(o: Out)
    ensures Adds(o, o, iset{})
  {}

  /** The opening of a node, up to its kind. */
  lemma HeadAdds(o: Out, kind: Bytes)
    ensures Adds(o, PutStr(PutStr(PutStr(o, OPEN), TYPE), kind), iset{})
  {
    hide Adds, PutStr;
    PutStrAdds(o, OPEN);
    StrOn(o, PutStr(o, OPEN), TYPE, iset{});
    StrOn(o, PutStr(PutStr(o, OPEN), TYPE), kind, iset{});
  }

  lemma FileAdds(o: Out, n: Node)
    requires Packable(n) && n.File?
    ensures Adds(o, PutNode(o, n), Bodies(n))
  {
    hide Adds, PutStr, PutBody;
    var none: iset<Bytes> := iset{};
    var r := PutStr(PutStr(PutStr(o, OPEN), TYPE), REGULAR);
    HeadAdds(o, REGULAR);
    StrOn(o, r, EXECUTABLE, none);
    StrOn(o, PutStr(r, EXECUTABLE), [], none);
    var x := if n.exec then PutStr(PutStr(r, EXECUTABLE), []) else r;
    StrOn(o, x, CONTENTS, none);
    var c := PutStr(x, CONTENTS);
    PutBodyAdds(c, Body(n));
    var body := if |Body(n)| >= 16 * 1024 then iset{Body(n)} else none;
    AddsTrans(o, c, PutBody(c, Body(n)), none, body);
    StrOn(o, PutBody(c, Body(n)), CLOSE, none + body);
    Same(o, PutNode(o, n), none + body, Bodies(n));
  }

  lemma LinkAdds(o: Out, n: Node)
    requires Packable(n) && n.Symlink?
    ensures Adds(o, PutNode(o, n), Bodies(n))
  {
    hide Adds, PutStr;
    var l := PutStr(PutStr(PutStr(o, OPEN), TYPE), SYMLINK);
    HeadAdds(o, SYMLINK);
    StrOn(o, l, TARGET, iset{});
    StrOn(o, PutStr(l, TARGET), n.target, iset{});
    StrOn(o, PutStr(PutStr(l, TARGET), n.target), CLOSE, iset{});
    Same(o, PutNode(o, n), iset{}, Bodies(n));
  }

  lemma {:induction false} NodeAdds(o: Out, n: Node)
    requires Packable(n)
    ensures Adds(o, PutNode(o, n), Bodies(n))
    decreases n
  {
    hide Adds, PutStr;
    match n
    case File(_, _, _) => FileAdds(o, n);
    case Symlink(_) => LinkAdds(o, n);
    case Dir(entries) =>
      var d := PutStr(PutStr(PutStr(o, OPEN), TYPE), DIRECTORY);
      HeadAdds(o, DIRECTORY);
      EntriesAdd(d, entries);
      AddsTrans(o, d, PutEntries(d, entries), iset{}, BodiesOf(entries));
      StrOn(o, PutEntries(d, entries), CLOSE, iset{} + BodiesOf(entries));
      Same(o, PutNode(o, n), iset{} + BodiesOf(entries), Bodies(n));
  }

  lemma {:induction false} EntriesAdd(o: Out, entries: seq<Entry>)
    requires forall e <- entries :: Packable(e.node)
    ensures Adds(o, PutEntries(o, entries), BodiesOf(entries))
    decreases entries
  {
    hide Adds, PutEntry;
    if entries == [] {
      NothingAdded(o);
      Same(o, o, iset{}, BodiesOf(entries));
    } else {
      var rest, e := entries[..|entries| - 1], entries[|entries| - 1];
      assert e in entries && entries == rest + [e];
      EntriesAdd(o, rest);
      EntryAdds(PutEntries(o, rest), e);
      AddsTrans(o, PutEntries(o, rest), PutEntries(o, entries), BodiesOf(rest), Bodies(e.node));
      assert forall x :: x in entries <==> x in rest || x == e;
      Same(o, PutEntries(o, entries), BodiesOf(rest) + Bodies(e.node), BodiesOf(entries));
    }
  }

  lemma {:induction false} EntryAdds(o: Out, e: Entry)
    requires Packable(e.node)
    ensures Adds(o, PutEntry(o, e), Bodies(e.node))
    decreases e
  {
    hide Adds, PutStr, PutNode, HasBody;
    var none: iset<Bytes> := iset{};
    var o2 := PutStr(PutStr(o, ENTRY), OPEN);
    var o4 := PutStr(PutStr(o2, NAME), e.name);
    var o5 := PutStr(o4, NODE);
    PutStrAdds(o, ENTRY);
    StrOn(o, PutStr(o, ENTRY), OPEN, none);
    StrOn(o, o2, NAME, none);
    StrOn(o, PutStr(o2, NAME), e.name, none);
    StrOn(o, o4, NODE, none);
    NodeAdds(o5, e.node);
    AddsTrans(o, o5, PutNode(o5, e.node), none, Bodies(e.node));
    StrOn(o, PutNode(o5, e.node), CLOSE, none + Bodies(e.node));
    Same(o, PutEntry(o, e), none + Bodies(e.node), Bodies(e.node));
  }

  /** The bodies handed out whole are those of the tree's files of at least 16 KiB. */
  lemma WholeBodies(n: Node, body: Bytes)
    requires Packable(n)
    ensures Whole(body) in Segments(n) <==> HasBody(n, body) && |body| >= 16 * 1024
  {
    hide PutNode, PutStr, HasBody;
    var start := PutStr(Out([], []), MAGIC);
    PutStrAdds(Out([], []), MAGIC);
    NodeAdds(start, n);
    FlushedAdds(PutNode(start, n));
    assert Whole(body) in Segments(n) <==> Whole(body) in PutNode(start, n).segs;
    assert body in Bodies(n) <==> HasBody(n, body) && |body| >= 16 * 1024;
  }

  // ---- and have chunks of their own ------------------------------------------------------------

  lemma FedGrows(cut: Bytes -> nat, c: Cutting, s: Seg)
    requires Cuts(cut)
    ensures c.chunks <= Fed(cut, c, s).chunks
  {
    hide Cuts, Split, Bounded;
  }

  lemma {:induction false} FedAllGrows(cut: Bytes -> nat, segs: seq<Seg>, k: nat)
    requires Cuts(cut) && k <= |segs|
    ensures FedAll(cut, segs[..k]).chunks <= FedAll(cut, segs).chunks
    decreases |segs|
  {
    hide Cuts, Fed;
    if k < |segs| {
      var rest := segs[..|segs| - 1];
      assert rest[..k] == segs[..k];
      FedAllGrows(cut, rest, k);
      FedGrows(cut, FedAll(cut, rest), segs[|segs| - 1]);
    } else {
      assert segs[..k] == segs;
    }
  }

  /** The list has these chunks in a row. */
  predicate InARow(chunks: seq<Bytes>, run: seq<Bytes>, i: nat)
  {
    i + |run| <= |chunks| && chunks[i..i + |run|] == run
  }

  /**
   A file of at least 16 KiB, wherever it is in the tree, is cut as it would be on its own,
   and its chunks stand in a row in the chunk list.
   */
  lemma FileKeepsChunks(cut: Bytes -> nat, n: Node, body: Bytes) returns (i: nat)
    requires Cuts(cut) && Packable(n) && HasBody(n, body) && |body| >= 16 * 1024
    ensures InARow(ChunkList(cut, n), Split(cut, body), i)
  {
    hide Cuts, Segments, HasBody, Split, Ended, FedAll, InARow;
    WholeBodies(n, body);
    var segs := Segments(n);
    var k :| 0 <= k < |segs| && segs[k] == Whole(body);
    i := BodyInARow(cut, segs, k);
    FedAllGrows(cut, segs, k + 1);
    EndedGrows(FedAll(cut, segs));
    StillInARow(FedAll(cut, segs[..k + 1]).chunks, ChunkList(cut, n), Split(cut, body), i);
  }

  lemma BodyInARow(cut: Bytes -> nat, segs: seq<Seg>, k: nat) returns (i: nat)
    requires Cuts(cut) && k < |segs| && segs[k].Whole?
    ensures InARow(FedAll(cut, segs[..k + 1]).chunks, Split(cut, segs[k].data), i)
  {
    hide Cuts, Split, Ended;
    assert segs[..k + 1][..k] == segs[..k] && segs[..k + 1][k] == segs[k];
    i := |Ended(FedAll(cut, segs[..k])).chunks|;
  }

  lemma EndedGrows(c: Cutting)
    ensures c.chunks <= Ended(c).chunks
  {
    hide Bounded;
  }

  lemma StillInARow(a: seq<Bytes>, b: seq<Bytes>, run: seq<Bytes>, i: nat)
    requires a <= b && InARow(a, run, i)
    ensures InARow(b, run, i)
  {
    assert b[i..i + |run|] == a[i..i + |run|];
  }

  /** Two trees that have a file in common have its chunks in common. */
  lemma FilesShareChunks(cut: Bytes -> nat, m: Node, n: Node, body: Bytes)
    requires Cuts(cut) && Packable(m) && Packable(n) && |body| >= 16 * 1024
    requires HasBody(m, body) && HasBody(n, body)
    ensures forall c <- Split(cut, body) :: c in ChunkList(cut, m) && c in ChunkList(cut, n)
  {
    hide Cuts, HasBody, Split, ChunkList;
    var i := FileKeepsChunks(cut, m, body);
    var j := FileKeepsChunks(cut, n, body);
    var run := Split(cut, body);
    forall c | c in run
      ensures c in ChunkList(cut, m) && c in ChunkList(cut, n)
    {
      var k :| 0 <= k < |run| && run[k] == c;
      assert ChunkList(cut, m)[i..i + |run|][k] == ChunkList(cut, m)[i + k];
      assert ChunkList(cut, n)[j..j + |run|][k] == ChunkList(cut, n)[j + k];
    }
  }

  lemma SplitFirst(cut: Bytes -> nat, d: Bytes)
    requires Cuts(cut) && |Split(cut, d)| > 0
    ensures 1 <= cut(d) <= |d| && Split(cut, d) == [d[..cut(d)]] + Split(cut, d[cut(d)..])
  {}

  lemma CatNone(chunks: seq<Bytes>)
    ensures Cat(chunks[..0]) == []
  {}

  lemma Behind(first: Bytes, rest: seq<Bytes>, k: nat)
    requires 0 < k <= |rest| + 1
    ensures ([first] + rest)[k..] == rest[k - 1..] && |Cat(([first] + rest)[..k])| == |first| + |Cat(rest[..k - 1])|
  {
    assert ([first] + rest)[..k] == [first] + rest[..k - 1];
    assert ([first] + rest[..k - 1])[1..] == rest[..k - 1];
  }

  /** From any chunk boundary on, the chunks are those of the rest: what came before does not matter. */
  lemma {:induction false} CutsResume(cut: Bytes -> nat, d: Bytes, k: nat)
    requires Cuts(cut) && k <= |Split(cut, d)|
    ensures |Cat(Split(cut, d)[..k])| <= |d| && Split(cut, d)[k..] == Split(cut, d[|Cat(Split(cut, d)[..k])|..])
    decreases k
  {
    hide Cuts, Split, Cat;
    if k == 0 {
      CatNone(Split(cut, d));
      assert d[0..] == d && Split(cut, d)[0..] == Split(cut, d);
    } else {
      SplitFirst(cut, d);
      var rest := d[cut(d)..];
      CutsResume(cut, rest, k - 1);
      Behind(d[..cut(d)], Split(cut, rest), k);
      var n := |Cat(Split(cut, rest)[..k - 1])|;
      assert rest[n..] == d[cut(d) + n..];
    }
  }

  /** Bodies that agree from a chunk boundary of each on have all later chunks in common. */
  lemma TailsShareChunks(cut: Bytes -> nat, a: Bytes, b: Bytes, j: nat, k: nat)
    requires Cuts(cut) && j <= |Split(cut, a)| && k <= |Split(cut, b)|
    requires |Cat(Split(cut, a)[..j])| <= |a| && |Cat(Split(cut, b)[..k])| <= |b|
    requires a[|Cat(Split(cut, a)[..j])|..] == b[|Cat(Split(cut, b)[..k])|..]
    ensures Split(cut, a)[j..] == Split(cut, b)[k..]
  {
    hide Cuts, Split, Cat;
    CutsResume(cut, a, j);
    CutsResume(cut, b, k);
  }

  // ---- framing is coalesced ----------------------------------------------------------------------

  lemma {:induction false} FramingJoins(cut: Bytes -> nat, segs: seq<Seg>)
    requires Cuts(cut) && (forall s <- segs :: s.Lit?) && |TextOf(segs)| < 256 * 1024
    ensures FedAll(cut, segs) == Cutting(TextOf(segs), [])
  {
    hide Cuts;
    if segs != [] {
      var rest, s := segs[..|segs| - 1], segs[|segs| - 1];
      assert s in segs && forall x <- rest :: x in segs;
      FramingJoins(cut, rest);
    }
  }

  /** A tree of small files whose archive is smaller than the largest cut is one chunk. */
  lemma SmallTreeIsOne(cut: Bytes -> nat, n: Node)
    requires Cuts(cut) && Packable(n) && |Archive(n)| < 256 * 1024
    requires forall b: Bytes :: HasBody(n, b) ==> |b| < 16 * 1024
    ensures ChunkList(cut, n) == [Archive(n)]
  {
    hide Cuts, Segments, Archive, HasBody, FedAll;
    SegmentsText(n);
    var segs := Segments(n);
    forall s | s in segs
      ensures s.Lit?
    {
      if s.Whole? { WholeBodies(n, s.data); }
    }
    FramingJoins(cut, segs);
    ArchiveStarts(n);
  }

  lemma ArchiveStarts(n: Node)
    requires Packable(n)
    ensures Archive(n) != []
  {
    StrShape(MAGIC);
  }
}

/**
 The streaming packer: framing and small files are buffered, larger bodies are handed
 out as they are read, in parts of whatever size the reads happen to have.
 */
module NarPack {
  import opened Bytes
  import opened Nar

  const EMIT_CHUNK: nat := 256 * 1024
  const BODY_MIN: nat := 16 * 1024
  const READ_BUFFER: nat := 1024 * 1024

  datatype Piece = Framing(data: Bytes) | Part(data: Bytes, last: bool)

  // ---- what is handed out, reads apart --------------------------------------------------

  /** A stretch of framing, or the whole of one file's body. */
  datatype Seg = Lit(data: Bytes) | Whole(data: Bytes)

  datatype Out = Out(buf: Bytes, segs: seq<Seg>)

  function Flushed(o: Out): Out { if o.buf == [] then o else Out([], o.segs + [Lit(o.buf)]) }

  function Put(o: Out, b: Bytes): Out { o.(buf := o.buf + b) }

  function Settled(o: Out): Out { if |o.buf| >= EMIT_CHUNK then Flushed(o) else o }

  function PutStr(o: Out, s: Bytes): Out { Settled(Put(o, Str(s))) }

  function PutBody(o: Out, body: Bytes): Out
  {
    var p := Put(o, ToLe(|body|, 8));
    if |body| < BODY_MIN then Settled(Put(p, body + Padding(|body|)))
    else Put(Out([], Flushed(p).segs + [Whole(body)]), Padding(|body|))
  }

  function PutNode(o: Out, n: Node): Out
    requires Packable(n)
    decreases n
  {
    var a := PutStr(PutStr(o, OPEN), TYPE);
    var b :=
      match n
      case Dir(entries) => PutEntries(PutStr(a, DIRECTORY), entries)
      case Symlink(target) => PutStr(PutStr(PutStr(a, SYMLINK), TARGET), target)
      case File(exec, _, _) =>
        var r := PutStr(a, REGULAR);
        var x := if exec then PutStr(PutStr(r, EXECUTABLE), []) else r;
        PutBody(PutStr(x, CONTENTS), Body(n));
    PutStr(b, CLOSE)
  }

  function PutEntry(o: Out, e: Entry): Out
    requires Packable(e.node)
    decreases e
  {
    var a := PutStr(PutStr(PutStr(PutStr(PutStr(o, ENTRY), OPEN), NAME), e.name), NODE);
    PutStr(PutNode(a, e.node), CLOSE)
  }

  function PutEntries(o: Out, entries: seq<Entry>): Out
    requires forall e <- entries :: Packable(e.node)
    decreases entries
  {
    if entries == [] then o else
      assert entries[|entries| - 1] in entries;
      PutEntry(PutEntries(o, entries[..|entries| - 1]), entries[|entries| - 1])
  }

  /** The segments of an archive. They depend on the tree alone. */
  function Segments(n: Node): seq<Seg>
    requires Packable(n)
  {
    Flushed(PutNode(PutStr(Out([], []), MAGIC), n)).segs
  }

  // ---- they concatenate to the archive ----------------------------------------------------

  function TextOf(segs: seq<Seg>): Bytes
  {
    if segs == [] then [] else TextOf(segs[..|segs| - 1]) + segs[|segs| - 1].data
  }

  function Text(o: Out): Bytes { TextOf(o.segs) + o.buf }

  lemma TextAppend(segs: seq<Seg>, s: Seg)
    ensures TextOf(segs + [s]) == TextOf(segs) + s.data
  {
    assert (segs + [s])[..|segs|] == segs;
  }

  lemma FlushedText(o: Out)
    ensures Text(Flushed(o)) == Text(o)
  {
    TextAppend(o.segs, Lit(o.buf));
  }

  lemma PutText(o: Out, b: Bytes)
    ensures Text(Put(o, b)) == Text(o) + b && Text(Settled(Put(o, b))) == Text(o) + b
  {
    FlushedText(Put(o, b));
  }

  lemma PutStrText(o: Out, s: Bytes)
    ensures Text(PutStr(o, s)) == Text(o) + Str(s)
  {
    PutText(o, Str(s));
  }

  lemma PutBodyText(o: Out, body: Bytes)
    ensures Text(PutBody(o, body)) == Text(o) + Str(body)
  {
    var len, pad := ToLe(|body|, 8), Padding(|body|);
    var p := Put(o, len);
    PutText(o, len);
    assert Str(body) == len + body + pad;
    hide Padding, ToLe, Settled, Str;
    if |body| < BODY_MIN {
      PutText(p, body + pad);
      assert Text(o) + len + (body + pad) == Text(o) + (len + body + pad);
    } else {
      FlushedText(p);
      var q := Out([], Flushed(p).segs + [Whole(body)]);
      TextAppend(Flushed(p).segs, Whole(body));
      PutText(q, pad);
      assert Flushed(p).buf == [];
      assert Text(o) + len + body + pad == Text(o) + (len + body + pad);
    }
  }

  lemma {:induction false} PutNodeText(o: Out, n: Node)
    requires Packable(n)
    ensures Text(PutNode(o, n)) == Text(o) + NodeBytes(n)
    decreases n
  {
    hide Str, PutStr, PutBody, Text;
    var x := Text(o);
    PutStrText(o, OPEN);
    var o1 := PutStr(o, OPEN);
    PutStrText(o1, TYPE);
    var a := PutStr(o1, TYPE);
    match n
    case Dir(entries) =>
      PutStrText(a, DIRECTORY);
      var b := PutStr(a, DIRECTORY);
      PutEntriesText(b, entries);
      PutStrText(PutEntries(b, entries), CLOSE);
    case Symlink(target) =>
      PutStrText(a, SYMLINK);
      var b := PutStr(a, SYMLINK);
      PutStrText(b, TARGET);
      var c := PutStr(b, TARGET);
      PutStrText(c, target);
      PutStrText(PutStr(c, target), CLOSE);
    case File(exec, _, _) =>
      PutFileText(a, n);
  }

  lemma PutFileText(a: Out, n: Node)
    requires Packable(n) && n.File?
    ensures var r := PutStr(a, REGULAR);
      var x := if n.exec then PutStr(PutStr(r, EXECUTABLE), []) else r;
      Text(PutStr(PutBody(PutStr(x, CONTENTS), Body(n)), CLOSE))
        == Text(a) + (Str(REGULAR) + (if n.exec then Str(EXECUTABLE) + Str([]) else []) + Str(CONTENTS)
          + Str(Body(n))) + Str(CLOSE)
  {
    hide Str, PutStr, PutBody, Text;
    var r := PutStr(a, REGULAR);
    PutStrText(a, REGULAR);
    PutStrText(r, EXECUTABLE);
    PutStrText(PutStr(r, EXECUTABLE), []);
    var x := if n.exec then PutStr(PutStr(r, EXECUTABLE), []) else r;
    PutStrText(x, CONTENTS);
    PutBodyText(PutStr(x, CONTENTS), Body(n));
    PutStrText(PutBody(PutStr(x, CONTENTS), Body(n)), CLOSE);
    var flag := if n.exec then Str(EXECUTABLE) + Str([]) else [];
    assert Text(x) == Text(a) + Str(REGULAR) + flag;
    assert Text(a) + Str(REGULAR) + flag + Str(CONTENTS) + Str(Body(n))
      == Text(a) + (Str(REGULAR) + flag + Str(CONTENTS) + Str(Body(n)));
  }

  lemma {:induction false} PutEntriesText(o: Out, entries: seq<Entry>)
    requires forall e <- entries :: Packable(e.node)
    ensures Text(PutEntries(o, entries)) == Text(o) + EntriesBytes(entries)
    decreases entries
  {
    hide Str, PutStr, Text, EntryBytes, PutEntry, NodeBytes;
    if entries != [] {
      var rest, e := entries[..|entries| - 1], entries[|entries| - 1];
      assert entries == rest + [e] && e in entries;
      PutEntriesText(o, rest);
      PutEntryText(PutEntries(o, rest), e);
      EntriesAppend(rest, e);
    }
  }

  lemma {:induction false} EntriesAppend(entries: seq<Entry>, e: Entry)
    requires forall x <- entries + [e] :: Packable(x.node)
    ensures (forall x <- entries :: Packable(x.node)) && Packable(e.node)
    ensures EntriesBytes(entries + [e]) == EntriesBytes(entries) + EntryBytes(e)
  {
    hide EntryBytes, Packable;
    var all := entries + [e];
    assert all[|entries|] == e;
    assert forall x <- entries :: x in all;
    if entries == [] {
      assert all == [e] && all[1..] == [];
    } else {
      assert all[1..] == entries[1..] + [e] && all[0] == entries[0];
      EntriesAppend(entries[1..], e);
      assert EntryBytes(all[0]) + (EntriesBytes(entries[1..]) + EntryBytes(e))
        == EntryBytes(all[0]) + EntriesBytes(entries[1..]) + EntryBytes(e);
    }
  }

  lemma PutEntryText(o: Out, e: Entry)
    requires Packable(e.node)
    ensures Text(PutEntry(o, e)) == Text(o) + EntryBytes(e)
    decreases e
  {
    hide Str, PutStr, Text, NodeBytes, PutNode;
    var o1 := PutStr(o, ENTRY);
    var o2 := PutStr(o1, OPEN);
    var o3 := PutStr(o2, NAME);
    var o4 := PutStr(o3, e.name);
    var o5 := PutStr(o4, NODE);
    PutStrText(o, ENTRY);
    PutStrText(o1, OPEN);
    PutStrText(o2, NAME);
    PutStrText(o3, e.name);
    PutStrText(o4, NODE);
    PutNodeText(o5, e.node);
    PutStrText(PutNode(o5, e.node), CLOSE);
  }

  lemma FlushedEmpty(o: Out)
    ensures Flushed(o).buf == [] && Text(Flushed(o)) == TextOf(Flushed(o).segs)
  {}

  /** What the packer hands out is the archive. */
  lemma SegmentsText(n: Node)
    requires Packable(n)
    ensures TextOf(Segments(n)) == Archive(n)
  {
    hide Str, NodeBytes, PutNode, PutStr;
    var o := PutStr(Out([], []), MAGIC);
    PutStrText(Out([], []), MAGIC);
    assert Text(o) == Str(MAGIC) by { assert Text(Out([], [])) == []; }
    PutNodeText(o, n);
    FlushedText(PutNode(o, n));
    hide TextOf, Flushed;
    FlushedEmpty(PutNode(o, n));
  }

  // ---- the emitter ------------------------------------------------------------------------

  /** Parts of a body joined up. `part` is the body still open. */
  datatype Joined = Joined(segs: seq<Seg>, part: Bytes)

  function Join(pieces: seq<Piece>): Joined
  {
    if pieces == [] then Joined([], []) else
      JoinOne(Join(pieces[..|pieces| - 1]), pieces[|pieces| - 1])
  }

  function JoinOne(j: Joined, p: Piece): Joined
  {
    match p
    case Framing(d) => Joined(j.segs + [Lit(d)], j.part)
    case Part(d, last) => if last then Joined(j.segs + [Whole(j.part + d)], []) else Joined(j.segs, j.part + d)
  }

  lemma JoinAppend(pieces: seq<Piece>, p: Piece)
    ensures Join(pieces + [p]) == JoinOne(Join(pieces), p)
  {
    assert (pieces + [p])[..|pieces|] == pieces;
  }

  /** A body comes in parts with something in them, nothing in between, the last one marked. */
  predicate Proper(pieces: seq<Piece>)
  {
    forall i | 0 <= i < |pieces| ::
      && pieces[i].data != []
      && (pieces[i].Framing? ==> Join(pieces[..i]).part == [])
  }

  lemma ProperAppend(pieces: seq<Piece>, p: Piece)
    requires Proper(pieces) && p.data != [] && (p.Framing? ==> Join(pieces).part == [])
    ensures Proper(pieces + [p])
  {
    var more := pieces + [p];
    forall i | 0 <= i < |more|
      ensures more[i].data != [] && (more[i].Framing? ==> Join(more[..i]).part == [])
    {
      assert more[..i] == if i < |pieces| then pieces[..i] else pieces;
    }
  }

  class Emitter {
    var buf: Bytes
    var pieces: seq<Piece>

    /** Between calls no body is open. */
    ghost predicate Valid()
      reads this
    {
      Join(pieces).part == [] && Proper(pieces)
    }

    ghost function Abs(): Out
      reads this
    {
      Out(buf, Join(pieces).segs)
    }

    constructor ()
      ensures Valid() && Abs() == Out([], [])
    {
      buf, pieces := [], [];
    }

    method HandOut(p: Piece)
      requires Proper(pieces) && p.data != [] && (p.Framing? ==> Join(pieces).part == [])
      modifies this`pieces
      ensures Proper(pieces) && Join(pieces) == JoinOne(Join(old(pieces)), p)
    {
      JoinAppend(pieces, p);
      ProperAppend(pieces, p);
      pieces := pieces + [p];
    }

    method Flush()
      requires Valid()
      modifies this
      ensures Valid() && Abs() == Flushed(old(Abs()))
    {
      if buf != [] {
        HandOut(Framing(buf));
        buf := [];
      }
    }

    method Len(n: nat)
      modifies this`buf
      ensures buf == old(buf) + ToLe(n, 8)
    {
      buf := buf + ToLe(n, 8);
    }

    method Pad(n: nat)
      modifies this`buf
      ensures buf == old(buf) + Padding(n)
    {
      var r := n % 8;
      if r != 0 {
        buf := buf + seq(8 - r, i => 0);
      }
    }

    method WriteStr(s: Bytes)
      requires Valid()
      modifies this
      ensures Valid() && Abs() == PutStr(old(Abs()), s)
    {
      Len(|s|);
      buf := buf + s;
      Pad(|s|);
      assert buf == old(buf) + Str(s);
      if |buf| >= EMIT_CHUNK {
        Flush();
      }
    }

    /** Reads return what they please, but nothing only at the end of the file. */
    method StreamBody(size: nat, data: Bytes) returns (ok: bool)
      requires Valid() && size > 0
      modifies this`pieces
      ensures ok == (size <= |data|)
      ensures ok ==> Valid() && Join(pieces).segs == old(Join(pieces).segs) + [Whole(data[..size])]
    {
      var left := size;
      while left > 0
        invariant 0 <= left <= size && size - left <= |data| && Proper(pieces)
        invariant left > 0 ==> Join(pieces) == Joined(old(Join(pieces).segs), data[..size - left])
        invariant left == 0 ==> Join(pieces) == Joined(old(Join(pieces).segs) + [Whole(data[..size])], [])
      {
        var want := if left <= READ_BUFFER then left else READ_BUFFER;
        var pos := size - left;
        var n: nat :| n <= want && n <= |data| - pos && (n == 0 <==> pos == |data|);
        if n == 0 {
          return false;
        }
        left := left - n;
        assert data[..pos] + data[pos..pos + n] == data[..pos + n];
        HandOut(Part(data[pos..pos + n], left == 0));
      }
      ok := true;
    }

    method WriteFile(size: nat, data: Bytes) returns (ok: bool)
      requires Valid()
      modifies this
      ensures ok == (size <= |data|)
      ensures ok ==> Valid() && Abs() == PutBody(old(Abs()), data[..size])
    {
      Len(size);
      if size < BODY_MIN {
        var n := if size <= |data| then size else |data|;
        if n != size { return false; }
        buf := buf + data[..n];
        Pad(size);
        assert buf == old(buf) + ToLe(size, 8) + (data[..size] + Padding(size));
        if |buf| >= EMIT_CHUNK {
          Flush();
        }
        return true;
      }
      Flush();
      ok := StreamBody(size, data);
      if ok { Pad(size); }
    }

    /** One node. It fails on a file that shrank and on a node without a NAR type. */
    method WriteNode(n: Node) returns (ok: bool)
      requires Valid()
      modifies this
      ensures ok == Packable(n)
      ensures ok ==> Valid() && Abs() == PutNode(old(Abs()), n)
      decreases n, 0
    {
      hide PutStr, PutBody, Join, Proper;
      WriteStr(OPEN);
      WriteStr(TYPE);
      match n {
        case Dir(entries) =>
          WriteStr(DIRECTORY);
          ok := WriteEntries(entries);
          if !ok { return; }
        case Symlink(target) =>
          WriteStr(SYMLINK);
          WriteStr(TARGET);
          WriteStr(target);
        case Special =>
          return false;
        case File(exec, size, data) =>
          WriteStr(REGULAR);
          if exec {
            WriteStr(EXECUTABLE);
            WriteStr([]);
          }
          WriteStr(CONTENTS);
          ok := WriteFile(size, data);
          if !ok { return; }
      }
      WriteStr(CLOSE);
      ok := true;
    }

    method WriteEntries(entries: seq<Entry>) returns (ok: bool)
      requires Valid()
      modifies this
      ensures ok == (forall e <- entries :: Packable(e.node))
      ensures ok ==> Valid() && Abs() == PutEntries(old(Abs()), entries)
      decreases entries, 1
    {
      hide PutStr, PutBody, Join, Proper;
      for i := 0 to |entries|
        invariant Valid() && (forall e <- entries[..i] :: Packable(e.node))
        invariant Abs() == PutEntries(old(Abs()), entries[..i])
      {
        var e := entries[i];
        assert e in entries;
        assert entries[..i + 1][..i] == entries[..i] && entries[..i + 1] == entries[..i] + [e];
        WriteStr(ENTRY);
        WriteStr(OPEN);
        WriteStr(NAME);
        WriteStr(e.name);
        WriteStr(NODE);
        ok := WriteNode(e.node);
        if !ok { return; }
        WriteStr(CLOSE);
      }
      assert entries[..|entries|] == entries;
      ok := true;
    }
  }

  /** Pack a tree. The pieces join up to segments that depend on the tree alone. */
  method Pack(n: Node) returns (ok: bool, pieces: seq<Piece>)
    ensures ok == Packable(n)
    ensures ok ==> Proper(pieces) && Join(pieces) == Joined(Segments(n), [])
  {
    var out := new Emitter();
    out.WriteStr(MAGIC);
    ok := out.WriteNode(n);
    pieces := [];
    if ok {
      out.Flush();
      pieces := out.pieces;
    }
  }
}

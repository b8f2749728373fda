/**
 The Nix Archive format: a recursive serialization of a file tree, and a parser that
 inverts it.
 */
module Nar {
  import opened Bytes

  /**
   A file tree as the packer finds it. `entries` is a directory's listing, sorted by
   name. `size` is a file's length when it was looked up and `data` what reading it gives.
   */
  datatype Node =
    | Dir(entries: seq<Entry>)
    | Symlink(target: Bytes)
    | File(exec: bool, size: nat, data: Bytes)
    | Special

  datatype Entry = Entry(name: Bytes, node: Node)

  const MAGIC: Bytes := [110, 105, 120, 45, 97, 114, 99, 104, 105, 118, 101, 45, 49]
  const OPEN: Bytes := [40]
  const CLOSE: Bytes := [41]
  const TYPE: Bytes := [116, 121, 112, 101]
  const DIRECTORY: Bytes := [100, 105, 114, 101, 99, 116, 111, 114, 121]
  const SYMLINK: Bytes := [115, 121, 109, 108, 105, 110, 107]
  const TARGET: Bytes := [116, 97, 114, 103, 101, 116]
  const REGULAR: Bytes := [114, 101, 103, 117, 108, 97, 114]
  const EXECUTABLE: Bytes := [101, 120, 101, 99, 117, 116, 97, 98, 108, 101]
  const CONTENTS: Bytes := [99, 111, 110, 116, 101, 110, 116, 115]
  const ENTRY: Bytes := [101, 110, 116, 114, 121]
  const NAME: Bytes := [110, 97, 109, 101]
  const NODE: Bytes := [110, 111, 100, 101]

  const U64: nat := 0x1_0000_0000_0000_0000

  // ---- serialization ------------------------------------------------------------------

  function Padding(n: nat): Bytes { if n % 8 == 0 then [] else seq(8 - n % 8, i => 0) }

  /** A length, the bytes and zeros up to a multiple of eight. */
  function Str(s: Bytes): Bytes { ToLe(|s|, 8) + s + Padding(|s|) }

  /** What a file's body is: the bytes its looked-up size promises. */
  function Body(n: Node): Bytes
    requires n.File? && n.size <= |n.data|
  {
    n.data[..n.size]
  }

  /** No file shrank since it was looked up, and every node has a NAR type. */
  predicate Packable(n: Node)
  {
    match n
    case Dir(entries) => forall e <- entries :: Packable(e.node)
    case Symlink(_) => true
    case File(_, size, data) => size <= |data|
    case Special => false
  }

  function NodeBytes(n: Node): Bytes
    requires Packable(n)
  {
    Str(OPEN) + Str(TYPE) + (
      match n
      case Dir(entries) => Str(DIRECTORY) + EntriesBytes(entries)
      case Symlink(target) => Str(SYMLINK) + Str(TARGET) + Str(target)
      case File(exec, _, _) =>
        Str(REGULAR) + (if exec then Str(EXECUTABLE) + Str([]) else []) + Str(CONTENTS) + Str(Body(n)))
    + Str(CLOSE)
  }

  function EntryBytes(e: Entry): Bytes
    requires Packable(e.node)
  {
    Str(ENTRY) + Str(OPEN) + Str(NAME) + Str(e.name) + Str(NODE) + NodeBytes(e.node) + Str(CLOSE)
  }

  function EntriesBytes(entries: seq<Entry>): Bytes
    requires forall e <- entries :: Packable(e.node)
  {
    if entries == [] then [] else
      assert entries[0] in entries;
      EntryBytes(entries[0]) + EntriesBytes(entries[1..])
  }

  function Archive(n: Node): Bytes
    requires Packable(n)
  {
    Str(MAGIC) + NodeBytes(n)
  }

  // ---- the format: everything is a string of eight-byte words ----------------------------

  lemma PaddingShape(n: nat)
    ensures n + |Padding(n)| == (n + 7) / 8 * 8 && |Padding(n)| < 8 && forall z <- Padding(n) :: z == 0
  {}

  /** A length in eight bytes, little-endian, the bytes, and less than eight zeros up to a multiple of eight. */
  lemma StrShape(s: Bytes)
    ensures |Str(s)| == 8 + (|s| + 7) / 8 * 8 && |Str(s)| % 8 == 0 && 8 + |s| <= |Str(s)| < |s| + 16
    ensures Str(s)[..8] == ToLe(|s|, 8) && Str(s)[8..8 + |s|] == s
    ensures forall i | 8 + |s| <= i < |Str(s)| :: Str(s)[i] == 0
  {
    PaddingShape(|s|);
    hide Padding, ToLe;
    var pad := Padding(|s|);
    assert forall i | 8 + |s| <= i < |Str(s)| :: Str(s)[i] == pad[i - 8 - |s|] && pad[i - 8 - |s|] in pad;
  }

  /** A whole number of eight-byte words. */
  predicate Words(b: Bytes) { |b| % 8 == 0 }

  lemma WordsJoin()
    ensures Words([]) && (forall t: Bytes :: Words(Str(t)))
    ensures forall a: Bytes, b: Bytes :: Words(a) && Words(b) ==> Words(a + b)
  {
    forall t: Bytes
      ensures Words(Str(t))
    {
      StrShape(t);
    }
  }

  lemma {:induction false} NodeWords(n: Node)
    requires Packable(n)
    ensures Words(NodeBytes(n))
  {
    hide Str, Words;
    WordsJoin();
    match n
    case Dir(entries) => EntriesWords(entries);
    case Symlink(target) =>
    case File(_, _, _) =>
  }

  lemma {:induction false} EntriesWords(entries: seq<Entry>)
    requires forall e <- entries :: Packable(e.node)
    ensures Words(EntriesBytes(entries))
  {
    hide Str, Words, NodeBytes;
    WordsJoin();
    if entries != [] {
      assert entries[0] in entries;
      NodeWords(entries[0].node);
      EntriesWords(entries[1..]);
    }
  }

  /** Every archive is a whole number of eight-byte words. */
  lemma ArchiveAligned(n: Node)
    requires Packable(n)
    ensures |Archive(n)| % 8 == 0
  {
    hide Str, NodeBytes;
    WordsJoin();
    NodeWords(n);
    assert Words(Archive(n));
  }

  lemma ShortLength(n: nat)
    requires n < 256
    ensures ToLe(n, 8) == [n, 0, 0, 0, 0, 0, 0, 0]
  {
    assert ToLe(0, 3) == [0, 0, 0];
    assert ToLe(0, 5) == [0, 0] + ToLe(0, 3);
    assert ToLe(0, 7) == [0, 0] + ToLe(0, 5);
    assert ToLe(n, 8) == [n] + ToLe(0, 7);
  }

  lemma ShortStr(s: Bytes, zeros: Bytes)
    requires |s| < 256 && zeros == Padding(|s|)
    ensures Str(s) == [|s|, 0, 0, 0, 0, 0, 0, 0] + s + zeros
  {
    ShortLength(|s|);
  }

  /** The archive of an empty file, byte by byte. */
  lemma EmptyFile()
    ensures Archive(File(false, 0, [])) ==
      [13, 0, 0, 0, 0, 0, 0, 0] + [110, 105, 120, 45, 97, 114, 99, 104, 105, 118, 101, 45, 49] + [0, 0, 0]
      + ([1, 0, 0, 0, 0, 0, 0, 0] + [40] + [0, 0, 0, 0, 0, 0, 0]
         + ([4, 0, 0, 0, 0, 0, 0, 0] + [116, 121, 112, 101] + [0, 0, 0, 0])
         + ([7, 0, 0, 0, 0, 0, 0, 0] + [114, 101, 103, 117, 108, 97, 114] + [0]
            + ([8, 0, 0, 0, 0, 0, 0, 0] + [99, 111, 110, 116, 101, 110, 116, 115] + [])
            + ([0, 0, 0, 0, 0, 0, 0, 0] + [] + []))
         + ([1, 0, 0, 0, 0, 0, 0, 0] + [41] + [0, 0, 0, 0, 0, 0, 0]))
  {
    var f := File(false, 0, []);
    ShortStr(MAGIC, [0, 0, 0]);
    ShortStr(OPEN, [0, 0, 0, 0, 0, 0, 0]);
    ShortStr(TYPE, [0, 0, 0, 0]);
    ShortStr(REGULAR, [0]);
    ShortStr(CONTENTS, []);
    ShortStr([], []);
    ShortStr(CLOSE, [0, 0, 0, 0, 0, 0, 0]);
    hide Str;
    assert Body(f) == [] && Str(REGULAR) + [] == Str(REGULAR);
  }

  // ---- parsing ------------------------------------------------------------------------

  datatype Parsed<T> = Fail | Got(value: T, rest: Bytes)

  function TakeStr(d: Bytes): (r: Parsed<Bytes>)
    ensures r.Got? ==> |r.rest| + 8 <= |d|
  {
    if |d| < 8 then Fail else
      var n := FromLe(d[..8]);
      var end := 8 + (n + 7) / 8 * 8;
      if |d| < end || exists i | 8 + n <= i < end :: d[i] != 0 then Fail else Got(d[8..8 + n], d[end..])
  }

  /** Take exactly this string. */
  function Eat(tok: Bytes, d: Bytes): (r: Parsed<Bytes>)
    ensures r.Got? ==> |r.rest| + 8 <= |d|
  {
    var p := TakeStr(d);
    if p.Got? && p.value == tok then p else Fail
  }

  function ParseNode(d: Bytes): (r: Parsed<Node>)
    ensures r.Got? ==> |r.rest| < |d|
    decreases |d|
  {
    var a := Eat(OPEN, d);
    if a.Fail? then Fail else
    var b := Eat(TYPE, a.rest);
    if b.Fail? then Fail else
    var kind := TakeStr(b.rest);
    if kind.Fail? then Fail
    else if kind.value == DIRECTORY then
      var es := ParseEntries(kind.rest);
      if es.Fail? then Fail else Got(Dir(es.value), es.rest)
    else if kind.value == SYMLINK then ParseLink(kind.rest)
    else if kind.value == REGULAR then ParseFile(kind.rest)
    else Fail
  }

  function ParseLink(d: Bytes): (r: Parsed<Node>)
    ensures r.Got? ==> |r.rest| < |d|
  {
    var a := Eat(TARGET, d);
    if a.Fail? then Fail else
    var target := TakeStr(a.rest);
    if target.Fail? then Fail else
    var b := Eat(CLOSE, target.rest);
    if b.Fail? then Fail else Got(Symlink(target.value), b.rest)
  }

  function ParseFile(d: Bytes): (r: Parsed<Node>)
    ensures r.Got? ==> |r.rest| < |d|
  {
    var mark := Eat(EXECUTABLE, d);
    var flag := if mark.Got? then Eat([], mark.rest) else Got([], d);
    if flag.Fail? then Fail else
    var a := Eat(CONTENTS, flag.rest);
    if a.Fail? then Fail else
    var body := TakeStr(a.rest);
    if body.Fail? then Fail else
    var b := Eat(CLOSE, body.rest);
    if b.Fail? then Fail else Got(File(mark.Got?, |body.value|, body.value), b.rest)
  }

  function ParseEntries(d: Bytes): (r: Parsed<seq<Entry>>)
    ensures r.Got? ==> |r.rest| < |d|
    decreases |d|
  {
    var end := Eat(CLOSE, d);
    if end.Got? then Got([], end.rest) else
    var a := Eat(ENTRY, d);
    if a.Fail? then Fail else
    var e := ParseEntry(a.rest);
    if e.Fail? then Fail else
    var es := ParseEntries(e.rest);
    if es.Fail? then Fail else Got([e.value] + es.value, es.rest)
  }

  function ParseEntry(d: Bytes): (r: Parsed<Entry>)
    ensures r.Got? ==> |r.rest| < |d|
    decreases |d|
  {
    var a := Eat(OPEN, d);
    if a.Fail? then Fail else
    var b := Eat(NAME, a.rest);
    if b.Fail? then Fail else
    var name := TakeStr(b.rest);
    if name.Fail? then Fail else
    var c := Eat(NODE, name.rest);
    if c.Fail? then Fail else
    var n := ParseNode(c.rest);
    if n.Fail? then Fail else
    var f := Eat(CLOSE, n.rest);
    if f.Fail? then Fail else Got(Entry(name.value, n.value), f.rest)
  }

  // ---- the parser inverts the serializer ------------------------------------------------

  /** Lengths fit the format's length field. */
  predicate Sized(n: Node)
  {
    match n
    case Dir(entries) => forall e <- entries :: |e.name| < U64 && Sized(e.node)
    case Symlink(target) => |target| < U64
    case File(_, size, _) => size < U64
    case Special => true
  }

  /** The tree an archive describes: files as long as they were looked up to be. */
  function Described(n: Node): Node
    requires Packable(n)
  {
    match n
    case Dir(entries) => Dir(DescribedAll(entries))
    case Symlink(_) => n
    case File(exec, size, _) => File(exec, size, Body(n))
  }

  function DescribedAll(entries: seq<Entry>): seq<Entry>
    requires forall e <- entries :: Packable(e.node)
  {
    if entries == [] then [] else
      assert entries[0] in entries;
      [Entry(entries[0].name, Described(entries[0].node))] + DescribedAll(entries[1..])
  }

  lemma TakesStr(s: Bytes, rest: Bytes)
    requires |s| < U64
    ensures TakeStr(Str(s) + rest) == Got(s, rest)
  {
    Pow256Values();
    LeRoundTrip(|s|, 8);
    StrShape(s);
    var d, end := Str(s) + rest, 8 + (|s| + 7) / 8 * 8;
    assert d[..8] == Str(s)[..8] && d[8..8 + |s|] == Str(s)[8..8 + |s|];
    assert forall i | 8 + |s| <= i < end :: d[i] == Str(s)[i];
    assert d[end..] == rest;
  }

  lemma Eats(tok: Bytes, rest: Bytes)
    requires |tok| < U64
    ensures Eat(tok, Str(tok) + rest) == Got(tok, rest)
    ensures forall other: Bytes :: other != tok ==> Eat(other, Str(tok) + rest).Fail?
  {
    hide Str, TakeStr;
    TakesStr(tok, rest);
  }

  lemma LinkInverse(target: Bytes, rest: Bytes)
    requires |target| < U64
    ensures ParseLink(Str(TARGET) + (Str(target) + (Str(CLOSE) + rest))) == Got(Symlink(target), rest)
  {
    hide Str, TakeStr, Eat;
    Eats(TARGET, Str(target) + (Str(CLOSE) + rest));
    TakesStr(target, Str(CLOSE) + rest);
    Eats(CLOSE, rest);
  }

  lemma FileInverse(exec: bool, body: Bytes, rest: Bytes)
    requires |body| < U64
    ensures var d := Str(CONTENTS) + (Str(body) + (Str(CLOSE) + rest));
      ParseFile(if exec then Str(EXECUTABLE) + (Str([]) + d) else d) == Got(File(exec, |body|, body), rest)
  {
    hide Str, TakeStr, Eat;
    var d := Str(CONTENTS) + (Str(body) + (Str(CLOSE) + rest));
    Eats(EXECUTABLE, Str([]) + d);
    Eats([], d);
    Eats(CONTENTS, Str(body) + (Str(CLOSE) + rest));
    TakesStr(body, Str(CLOSE) + rest);
    Eats(CLOSE, rest);
  }

  /** The opening of a node, up to its kind. */
  lemma HeadInverse(kind: Bytes, rest: Bytes)
    requires kind in {DIRECTORY, SYMLINK, REGULAR}
    ensures ParseNode(Str(OPEN) + (Str(TYPE) + (Str(kind) + rest))) ==
      if kind == DIRECTORY then
        var es := ParseEntries(rest);
        if es.Fail? then Fail else Got(Dir(es.value), es.rest)
      else if kind == SYMLINK then ParseLink(rest) else ParseFile(rest)
  {
    hide Str, TakeStr, Eat, ParseEntries, ParseLink, ParseFile;
    Eats(OPEN, Str(TYPE) + (Str(kind) + rest));
    Eats(TYPE, Str(kind) + rest);
    TakesStr(kind, rest);
  }

  lemma Nested<T>(a: seq<T>, b: seq<T>, c: seq<T>, d: seq<T>, rest: seq<T>)
    ensures a + b + (c + d) + rest == a + (b + (c + (d + rest)))
    ensures a + b + c + d + rest == a + (b + (c + (d + rest)))
    ensures a + b + c + rest == a + (b + (c + rest))
    ensures a + b + rest == a + (b + rest)
  {}

  /** A node's bytes, with what is inside its kind apart. */
  lemma NodeNested(kind: Bytes, inside: Bytes, rest: Bytes)
    ensures Str(OPEN) + Str(TYPE) + (Str(kind) + inside) + Str(CLOSE) + rest
         == Str(OPEN) + (Str(TYPE) + (Str(kind) + (inside + (Str(CLOSE) + rest))))
  {
    hide Str;
    Nested(Str(OPEN), Str(TYPE), Str(kind), inside, Str(CLOSE) + rest);
    Nested(Str(OPEN) + Str(TYPE), Str(kind) + inside, Str(CLOSE), rest, []);
  }

  lemma {:induction false} NodeInverse(n: Node, rest: Bytes)
    requires Packable(n) && Sized(n)
    ensures ParseNode(NodeBytes(n) + rest) == Got(Described(n), rest)
    decreases n
  {
    hide Str, ParseNode, ParseEntries, ParseLink, ParseFile;
    var end := Str(CLOSE) + rest;
    match n
    case Dir(entries) =>
      NodeNested(DIRECTORY, EntriesBytes(entries), rest);
      HeadInverse(DIRECTORY, EntriesBytes(entries) + end);
      EntriesInverse(entries, rest);
    case Symlink(target) =>
      var inside := Str(TARGET) + Str(target);
      assert Str(SYMLINK) + Str(TARGET) + Str(target) == Str(SYMLINK) + inside;
      NodeNested(SYMLINK, inside, rest);
      assert inside + end == Str(TARGET) + (Str(target) + end);
      HeadInverse(SYMLINK, inside + end);
      LinkInverse(target, rest);
    case File(exec, _, _) =>
      var flag := if exec then Str(EXECUTABLE) + Str([]) else [];
      var inside := flag + Str(CONTENTS) + Str(Body(n));
      assert Str(REGULAR) + flag + Str(CONTENTS) + Str(Body(n)) == Str(REGULAR) + inside;
      NodeNested(REGULAR, inside, rest);
      HeadInverse(REGULAR, inside + end);
      var d := Str(CONTENTS) + (Str(Body(n)) + end);
      assert inside + end == flag + d;
      assert exec ==> flag + d == Str(EXECUTABLE) + (Str([]) + d);
      assert !exec ==> flag + d == d;
      FileInverse(exec, Body(n), rest);
  }

  lemma {:induction false} EntriesInverse(entries: seq<Entry>, rest: Bytes)
    requires forall e <- entries :: Packable(e.node) && |e.name| < U64 && Sized(e.node)
    ensures ParseEntries(EntriesBytes(entries) + (Str(CLOSE) + rest)) == Got(DescribedAll(entries), rest)
    decreases entries
  {
    hide Str, TakeStr, Eat, ParseEntry;
    var end := Str(CLOSE) + rest;
    if entries == [] {
      assert EntriesBytes(entries) + end == end;
      Eats(CLOSE, rest);
    } else {
      var e := entries[0];
      assert e in entries;
      var more := EntriesBytes(entries[1..]) + end;
      EntriesInverse(entries[1..], rest);
      EntryInverse(e, more);
      var inside := Str(OPEN) + (Str(NAME) + (Str(e.name) + (Str(NODE) + (NodeBytes(e.node) + (Str(CLOSE) + more)))));
      EntryNested(e, EntriesBytes(entries[1..]), end);
      Eats(ENTRY, inside);
    }
  }

  lemma EntryNested(e: Entry, others: Bytes, end: Bytes)
    requires Packable(e.node)
    ensures EntryBytes(e) + others + end
         == Str(ENTRY) + (Str(OPEN) + (Str(NAME)
           + (Str(e.name) + (Str(NODE) + (NodeBytes(e.node) + (Str(CLOSE) + (others + end)))))))
  {
    hide Str, NodeBytes;
    var more := others + end;
    Nested(Str(NODE), NodeBytes(e.node), Str(CLOSE), more, []);
    Nested(Str(ENTRY), Str(OPEN), Str(NAME), Str(e.name), Str(NODE) + NodeBytes(e.node) + Str(CLOSE) + more);
    assert EntryBytes(e) + others + end
      == Str(ENTRY) + Str(OPEN) + Str(NAME) + Str(e.name) + (Str(NODE) + NodeBytes(e.node) + Str(CLOSE) + more);
  }

  lemma EntryInverse(e: Entry, rest: Bytes)
    requires Packable(e.node) && |e.name| < U64 && Sized(e.node)
    ensures ParseEntry(Str(OPEN) + (Str(NAME)
      + (Str(e.name) + (Str(NODE) + (NodeBytes(e.node) + (Str(CLOSE) + rest))))))
         == Got(Entry(e.name, Described(e.node)), rest)
    decreases e
  {
    hide Str, TakeStr, Eat, ParseNode, NodeBytes, Described;
    var d5 := Str(CLOSE) + rest;
    var d4 := NodeBytes(e.node) + d5;
    var d3 := Str(NODE) + d4;
    var d2 := Str(e.name) + d3;
    var d1 := Str(NAME) + d2;
    Eats(OPEN, d1);
    Eats(NAME, d2);
    TakesStr(e.name, d3);
    Eats(NODE, d4);
    NodeInverse(e.node, d5);
    Eats(CLOSE, rest);
  }

  function ParseArchive(d: Bytes): Parsed<Node>
  {
    var a := Eat(MAGIC, d);
    if a.Fail? then Fail else
    var n := ParseNode(a.rest);
    if n.Got? && n.rest == [] then n else Fail
  }

  /** Reading an archive back gives the tree it was made of. */
  lemma ArchiveInverse(n: Node)
    requires Packable(n) && Sized(n)
    ensures ParseArchive(Archive(n)) == Got(Described(n), [])
  {
    hide Str, Eat, ParseNode, NodeBytes;
    Eats(MAGIC, NodeBytes(n));
    NodeInverse(n, []);
    assert NodeBytes(n) + [] == NodeBytes(n);
  }

  /** Files are as long as they were looked up to be. */
  predicate Exact(n: Node)
  {
    match n
    case Dir(entries) => forall e <- entries :: Exact(e.node)
    case Symlink(_) => true
    case File(_, size, data) => size == |data|
    case Special => false
  }

  lemma {:induction false} ExactDescribed(n: Node)
    requires Exact(n)
    ensures Packable(n) && Described(n) == n
  {
    match n
    case Dir(entries) => ExactAll(entries);
    case _ =>
  }

  lemma {:induction false} ExactAll(entries: seq<Entry>)
    requires forall e <- entries :: Exact(e.node)
    ensures (forall e <- entries :: Packable(e.node)) && DescribedAll(entries) == entries
  {
    if entries != [] {
      assert entries[0] in entries;
      ExactDescribed(entries[0].node);
      ExactAll(entries[1..]);
      forall e | e in entries
        ensures Packable(e.node)
      {
        if e != entries[0] { assert e in entries[1..]; }
      }
    }
  }

  /** Different trees have different archives. */
  lemma ArchiveInjective(a: Node, b: Node)
    requires Exact(a) && Exact(b) && Sized(a) && Sized(b)
    ensures Packable(a) && Packable(b) && (Archive(a) == Archive(b) <==> a == b)
  {
    hide ParseArchive;
    ExactDescribed(a);
    ExactDescribed(b);
    ArchiveInverse(a);
    ArchiveInverse(b);
  }

  // ---- every archive is the serialization of a tree -------------------------------------

  lemma TakenBack(d: Bytes)
    requires TakeStr(d).Got?
    ensures var r := TakeStr(d); d == Str(r.value) + r.rest && |r.value| < U64
  {
    Pow256Values();
    LeInverse(d[..8]);
    var r := TakeStr(d);
    var n, end := |r.value|, 8 + (|r.value| + 7) / 8 * 8;
    StrShape(r.value);
    assert d == d[..8] + d[8..8 + n] + d[8 + n..end] + d[end..];
    assert d[8 + n..end] == Padding(n);
  }

  lemma EatenBack(tok: Bytes, d: Bytes)
    ensures var r := Eat(tok, d); r.Got? ==> d == Str(tok) + r.rest
  {
    hide Str, TakeStr;
    if TakeStr(d).Got? { TakenBack(d); }
  }

  lemma LinkBack(d: Bytes)
    requires ParseLink(d).Got?
    ensures var r := ParseLink(d);
      && r.value.Symlink? && |r.value.target| < U64
      && d == Str(TARGET) + Str(r.value.target) + (Str(CLOSE) + r.rest)
  {
    hide Str, TakeStr, Eat;
    EatenBack(TARGET, d);
    var a := Eat(TARGET, d).rest;
    TakenBack(a);
    EatenBack(CLOSE, TakeStr(a).rest);
  }

  lemma FileBack(d: Bytes)
    requires ParseFile(d).Got?
    ensures var r := ParseFile(d);
      && r.value.File? && r.value.size == |r.value.data| < U64
      && d == (if r.value.exec then Str(EXECUTABLE) + Str([]) else []) + Str(CONTENTS) + Str(r.value.data)
              + (Str(CLOSE) + r.rest)
  {
    hide Str, TakeStr, Eat;
    EatenBack(EXECUTABLE, d);
    var mark := Eat(EXECUTABLE, d);
    if mark.Got? { EatenBack([], mark.rest); }
    var flag := if mark.Got? then Eat([], mark.rest) else Got([], d);
    EatenBack(CONTENTS, flag.rest);
    var a := Eat(CONTENTS, flag.rest).rest;
    TakenBack(a);
    EatenBack(CLOSE, TakeStr(a).rest);
    FileJoin(d, mark.Got?, flag.rest, TakeStr(a).value, Str(CLOSE) + ParseFile(d).rest);
  }

  lemma FileJoin(d: Bytes, exec: bool, inner: Bytes, body: Bytes, end: Bytes)
    requires exec ==> d == Str(EXECUTABLE) + (Str([]) + inner)
    requires !exec ==> d == inner
    requires inner == Str(CONTENTS) + (Str(body) + end)
    ensures d == (if exec then Str(EXECUTABLE) + Str([]) else []) + Str(CONTENTS) + Str(body) + end
  {
    hide Str;
  }

  lemma {:induction false} NodeBack(d: Bytes)
    requires ParseNode(d).Got?
    ensures var r := ParseNode(d); Exact(r.value) && Sized(r.value) && Packable(r.value)
    ensures var r := ParseNode(d); d == NodeBytes(r.value) + r.rest
    decreases |d|
  {
    hide Str, TakeStr, Eat, ParseEntries, ParseLink, ParseFile;
    EatenBack(OPEN, d);
    var a := Eat(OPEN, d).rest;
    EatenBack(TYPE, a);
    var b := Eat(TYPE, a).rest;
    TakenBack(b);
    var kind := TakeStr(b);
    var r := ParseNode(d);
    assert d == Str(OPEN) + (Str(TYPE) + (Str(kind.value) + kind.rest));
    if kind.value == DIRECTORY {
      EntriesBack(kind.rest);
      ExactAll(r.value.entries);
      NodeNested(DIRECTORY, EntriesBytes(r.value.entries), r.rest);
    } else if kind.value == SYMLINK {
      LinkBack(kind.rest);
      var inside := Str(TARGET) + Str(r.value.target);
      NodeNested(SYMLINK, inside, r.rest);
      assert Str(SYMLINK) + Str(TARGET) + Str(r.value.target) == Str(SYMLINK) + inside;
    } else {
      FileBack(kind.rest);
      var flag := if r.value.exec then Str(EXECUTABLE) + Str([]) else [];
      var inside := flag + Str(CONTENTS) + Str(r.value.data);
      NodeNested(REGULAR, inside, r.rest);
      assert Body(r.value) == r.value.data;
      assert Str(REGULAR) + flag + Str(CONTENTS) + Str(r.value.data) == Str(REGULAR) + inside;
    }
  }

  lemma {:induction false} EntriesBack(d: Bytes)
    requires ParseEntries(d).Got?
    ensures var r := ParseEntries(d); forall e <- r.value :: Exact(e.node) && Sized(e.node) && |e.name| < U64
    ensures var r := ParseEntries(d); forall e <- r.value :: Packable(e.node)
    ensures var r := ParseEntries(d); d == EntriesBytes(r.value) + (Str(CLOSE) + r.rest)
    decreases |d|
  {
    hide Str, TakeStr, Eat, ParseEntry, EntryBytes;
    EatenBack(CLOSE, d);
    if Eat(CLOSE, d).Fail? {
      EatenBack(ENTRY, d);
      var a := Eat(ENTRY, d).rest;
      EntryBack(a);
      var e := ParseEntry(a);
      EntriesBack(e.rest);
      var es := ParseEntries(e.rest);
      var r := ParseEntries(d);
      assert r.value == [e.value] + es.value && r.value[0] == e.value && r.value[1..] == es.value;
      assert Str(ENTRY) + a == EntryBytes(e.value) + e.rest;
    }
  }

  lemma {:induction false} EntryBack(d: Bytes)
    requires ParseEntry(d).Got?
    ensures var r := ParseEntry(d);
      && Exact(r.value.node) && Sized(r.value.node) && Packable(r.value.node) && |r.value.name| < U64
      && Str(ENTRY) + d == EntryBytes(r.value) + r.rest
    decreases |d|
  {
    hide Str, TakeStr, Eat, ParseNode, NodeBytes;
    EatenBack(OPEN, d);
    var a := Eat(OPEN, d).rest;
    EatenBack(NAME, a);
    var b := Eat(NAME, a).rest;
    TakenBack(b);
    var name := TakeStr(b);
    EatenBack(NODE, name.rest);
    var c := Eat(NODE, name.rest).rest;
    NodeBack(c);
    var n := ParseNode(c);
    EatenBack(CLOSE, n.rest);
    var r := ParseEntry(d);
    EntryNested(r.value, [], r.rest);
    assert EntryBytes(r.value) + [] + r.rest == EntryBytes(r.value) + r.rest && [] + r.rest == r.rest;
  }

  /** What parses as an archive is the serialization of the tree it parses to, byte for byte. */
  lemma ParsedIsArchive(d: Bytes)
    requires ParseArchive(d).Got?
    ensures var n := ParseArchive(d).value; Exact(n) && Sized(n) && Packable(n)
    ensures var n := ParseArchive(d).value; Archive(n) == d
  {
    hide Str, TakeStr, Eat, ParseNode, NodeBytes;
    EatenBack(MAGIC, d);
    var a := Eat(MAGIC, d).rest;
    NodeBack(a);
    assert NodeBytes(ParseNode(a).value) + [] == NodeBytes(ParseNode(a).value);
  }
}

/**
 Output delivery. Hub and worker each walk the same recipes with a loop and a set of
 their own, and must agree on every frame: the worker sends each needed chunk once, in
 recipe order, and the hub takes the rest from its cache.
 */
module Delivery {
  import opened Bytes
  import opened Pack
  import opened CacheSharing
  import ChunkCache
  import ChunkStoreOpen

  /** What decompressing a frame gives. */
  datatype Decoded = Bad | Plain(data: Bytes)

  /** A packed chunk: its hash and size make the recipe, its frame goes on the wire. */
  datatype Chunk = Chunk(hash: Hash, size: nat, frame: Pack.Frame)

  datatype Msg = Frame(hash: Hash, zstd: Bytes) | Eof

  datatype Got = Failed | Got(frame: Bytes)

  // ---- decoding ----------------------------------------------------------------------------

  /** decode_chunk accepts the frame for this recipe entry. */
  predicate Fits(dec: Bytes -> Decoded, hash: Bytes -> Hash, frame: Bytes, h: Hash, size: nat)
  {
    dec(frame).Plain? && |dec(frame).data| == size && hash(dec(frame).data) == h
  }

  /** Among the plaintexts in play no two have the same hash. */
  ghost predicate Apart(hash: Bytes -> Hash, known: iset<Bytes>)
  {
    forall a, b | a in known && b in known && hash(a) == hash(b) :: a == b
  }

  /** The frame holds the plaintext in play that its hash names. */
  ghost predicate Familiar(dec: Bytes -> Decoded, hash: Bytes -> Hash, known: iset<Bytes>, h: Hash, frame: Bytes)
  {
    dec(frame).Plain? && dec(frame).data in known && hash(dec(frame).data) == h
  }

  /** The worker sends what its recipes say. */
  ghost predicate Honest(dec: Bytes -> Decoded, hash: Bytes -> Hash, known: iset<Bytes>, chunks: seq<Chunk>)
  {
    forall c <- chunks :: Fits(dec, hash, c.frame, c.hash, c.size) && Familiar(dec, hash, known, c.hash, c.frame)
  }

  function Texts(dec: Bytes -> Decoded, frames: seq<Bytes>): Bytes
  {
    if frames == [] then [] else
      var d := dec(frames[|frames| - 1]);
      Texts(dec, frames[..|frames| - 1]) + if d.Plain? then d.data else []
  }

  function Packed(chunks: seq<Chunk>): seq<Bytes> { seq(|chunks|, i requires 0 <= i < |chunks| => chunks[i].frame) }

  // ---- the worker ---------------------------------------------------------------------------

  function Hashes(chunks: seq<Chunk>): set<Hash> { set c | c in chunks :: c.hash }

  /** Every needed chunk once, at its first place in the list. */
  function Emits(chunks: seq<Chunk>, needed: set<Hash>): seq<Msg>
  {
    if chunks == [] then []
    else if chunks[0].hash in needed then [Frame(chunks[0].hash, chunks[0].frame)]
      + Emits(chunks[1..], needed - {chunks[0].hash})
    else Emits(chunks[1..], needed)
  }

  function Flat(files: seq<seq<Chunk>>): seq<Chunk>
  {
    if files == [] then [] else files[0] + Flat(files[1..])
  }

  lemma {:induction false} EmitsApart(a: seq<Chunk>, b: seq<Chunk>, needed: set<Hash>)
    ensures Emits(a + b, needed) == Emits(a, needed) + Emits(b, needed - Hashes(a))
  {
    if a == [] {
      assert a + b == b && needed - Hashes(a) == needed;
    } else {
      var h := a[0].hash;
      assert (a + b)[1..] == a[1..] + b;
      assert Hashes(a) == {h} + Hashes(a[1..]) by { assert a == [a[0]] + a[1..]; }
      EmitsApart(a[1..], b, if h in needed then needed - {h} else needed);
      assert (if h in needed then needed - {h} else needed) - Hashes(a[1..]) == needed - Hashes(a);
    }
  }

  lemma EmitsOne(a: seq<Chunk>, c: Chunk, needed: set<Hash>)
    ensures Emits(a + [c], needed)
      == Emits(a, needed) + if c.hash in needed - Hashes(a) then [Frame(c.hash, c.frame)] else []
    ensures Hashes(a + [c]) == Hashes(a) + {c.hash}
  {
    EmitsApart(a, [c], needed);
    assert Emits([c], needed - Hashes(a))
      == if c.hash in needed - Hashes(a) then [Frame(c.hash, c.frame)] + Emits([], needed - Hashes(a) - {c.hash})
         else [];
  }

  lemma {:induction false} FlatAppend(files: seq<seq<Chunk>>, f: seq<Chunk>)
    ensures Flat(files + [f]) == Flat(files) + f
  {
    if files == [] {
      assert files + [f] == [f] && [f][1..] == [];
    } else {
      assert (files + [f])[1..] == files[1..] + [f];
      FlatAppend(files[1..], f);
    }
  }

  /** Answer the hub's Need. It fails if the hub asked for something not in the recipes. */
  method SendChunks(files: seq<seq<Chunk>>, need: set<Hash>) returns (ok: bool, msgs: seq<Msg>)
    ensures ok == (need <= Hashes(Flat(files)))
    ensures msgs == Emits(Flat(files), need) + if ok then [Eof] else []
  {
    var needed := need;
    msgs := [];
    for i := 0 to |files|
      invariant needed == need - Hashes(Flat(files[..i])) && msgs == Emits(Flat(files[..i]), need)
    {
      var chunks := files[i];
      ghost var before := Flat(files[..i]);
      assert before + chunks[..0] == before;
      for k := 0 to |chunks|
        invariant needed == need - Hashes(before + chunks[..k]) && msgs == Emits(before + chunks[..k], need)
      {
        var c := chunks[k];
        EmitsOne(before + chunks[..k], c, need);
        assert before + chunks[..k] + [c] == before + chunks[..k + 1];
        if c.hash in needed {
          needed := needed - {c.hash};
          msgs := msgs + [Frame(c.hash, c.frame)];
        }
      }
      assert chunks[..|chunks|] == chunks && files[..i + 1] == files[..i] + [chunks];
      FlatAppend(files[..i], chunks);
    }
    assert files[..|files|] == files;
    ok := needed == {};
    assert need <= Hashes(Flat(files)) <==> forall h <- need :: h !in needed;
    if ok {
      msgs := msgs + [Eof];
    }
  }

  /** Nothing unasked is sent. */
  lemma {:induction false} EmitsAsked(chunks: seq<Chunk>, needed: set<Hash>)
    ensures forall m <- Emits(chunks, needed) :: m.Frame? && m.hash in needed
  {
    if chunks != [] {
      EmitsAsked(chunks[1..], if chunks[0].hash in needed then needed - {chunks[0].hash} else needed);
    }
  }

  /** No chunk is named twice. */
  predicate NoRepeats(msgs: seq<Msg>)
  {
    forall i, j | 0 <= i < j < |msgs| && msgs[i].Frame? && msgs[j].Frame? :: msgs[i].hash != msgs[j].hash
  }

  /** Nothing is sent twice. */
  lemma {:induction false} EmitsOnce(chunks: seq<Chunk>, needed: set<Hash>)
    ensures NoRepeats(Emits(chunks, needed))
  {
    if chunks != [] {
      var h := chunks[0].hash;
      if h in needed {
        var all, others := Emits(chunks, needed), Emits(chunks[1..], needed - {h});
        EmitsOnce(chunks[1..], needed - {h});
        EmitsAsked(chunks[1..], needed - {h});
        forall i, j | 0 <= i < j < |all|
          ensures all[i].Frame? && all[j].Frame? ==> all[i].hash != all[j].hash
        {
          assert all[j] == others[j - 1] && others[j - 1] in others;
          if i > 0 { assert all[i] == others[i - 1]; }
        }
      } else {
        EmitsOnce(chunks[1..], needed);
      }
    }
  }

  lemma SentOnce(chunks: seq<Chunk>, needed: set<Hash>)
    ensures NoRepeats(Emits(chunks, needed) + [Eof])
  {
    hide Emits;
    EmitsOnce(chunks, needed);
  }

  /** All that was asked for and is in the recipes is sent. */
  lemma {:induction false} EmitsAll(chunks: seq<Chunk>, needed: set<Hash>, h: Hash)
    requires h in needed && h in Hashes(chunks)
    ensures exists m :: m in Emits(chunks, needed) && m.Frame? && m.hash == h
  {
    var g := chunks[0].hash;
    var all := Emits(chunks, needed);
    if g == h {
      assert all[0] == Frame(h, chunks[0].frame);
    } else {
      var c :| c in chunks && c.hash == h;
      assert c in chunks[1..] by { assert chunks == [chunks[0]] + chunks[1..]; }
      var rest := if g in needed then needed - {g} else needed;
      EmitsAll(chunks[1..], rest, h);
      var m :| m in Emits(chunks[1..], rest) && m.Frame? && m.hash == h;
      assert m in all;
    }
  }

  // ---- the hub ------------------------------------------------------------------------------

  type Recipe = seq<(Hash, nat)>

  function RecipeOf(chunks: seq<Chunk>): Recipe
  {
    seq(|chunks|, i requires 0 <= i < |chunks| => (chunks[i].hash, chunks[i].size))
  }

  lemma RecipeAt(chunks: seq<Chunk>, i: nat)
    ensures |RecipeOf(chunks)| == |chunks| && (i < |chunks| ==> RecipeOf(chunks)[i] == (chunks[i].hash, chunks[i].size))
  {}

  lemma TextsNone(dec: Bytes -> Decoded, chunks: seq<Chunk>)
    ensures Texts(dec, []) == Texts(dec, Packed(chunks[..0]))
  {
    assert Packed(chunks[..0]) == [];
  }

  lemma TextsOn(dec: Bytes -> Decoded, frames: seq<Bytes>, chunks: seq<Chunk>, i: nat, f: Bytes)
    requires i < |chunks| && Texts(dec, frames) == Texts(dec, Packed(chunks[..i])) && dec(f) == dec(chunks[i].frame)
    ensures Texts(dec, frames + [f]) == Texts(dec, Packed(chunks[..i + 1]))
  {
    assert Packed(chunks[..i + 1])[..i] == Packed(chunks[..i]);
    assert (frames + [f])[..|frames|] == frames;
  }

  /** Where both sides stand: what is still to come is what the worker sends for it. */
  predicate InStep(rest: seq<Chunk>, needed: set<Hash>, inbox: seq<Msg>, frames: Frames, pinned: multiset<Hash>)
  {
    && inbox == Emits(rest, needed) + [Eof]
    && forall c <- rest :: c.hash in pinned && (c.hash in needed || c.hash in frames)
  }

  lemma StepKept(rest: seq<Chunk>, needed: set<Hash>, inbox: seq<Msg>, a: Frames, b: Frames, pinned: multiset<Hash>)
    requires InStep(rest, needed, inbox, a, pinned) && Keeps(a, b, pinned)
    ensures InStep(rest, needed, inbox, b, pinned)
  {}

  /** The next chunk comes from the wire. */
  lemma StepSent(c: Chunk, rest: seq<Chunk>, needed: set<Hash>, inbox: seq<Msg>, frames: Frames, pinned: multiset<Hash>)
    requires InStep([c] + rest, needed, inbox, frames, pinned) && c.hash in needed
    ensures inbox != [] && inbox[0] == Frame(c.hash, c.frame) && inbox[1..] == Emits(rest, needed - {c.hash}) + [Eof]
    ensures c.hash in pinned
    ensures forall d <- rest ::
      d.hash in pinned && (d.hash in needed - {c.hash} || d.hash == c.hash || d.hash in frames)
  {
    var all := [c] + rest;
    assert all[0] == c && all[1..] == rest;
    assert c in all;
    var more := Emits(rest, needed - {c.hash});
    assert inbox == [Frame(c.hash, c.frame)] + more + [Eof];
  }

  /** The next chunk is in the cache. */
  lemma StepCached(c: Chunk, rest: seq<Chunk>, needed: set<Hash>, inbox: seq<Msg>, frames: Frames,
        pinned: multiset<Hash>)
    requires InStep([c] + rest, needed, inbox, frames, pinned) && c.hash !in needed
    ensures c.hash in frames && c.hash in pinned && InStep(rest, needed, inbox, frames, pinned)
  {
    var all := [c] + rest;
    assert all[0] == c && all[1..] == rest;
    assert c in all;
  }

  /** Frames of one hash decode alike when no two plaintexts in play collide. */
  lemma SamePlain(dec: Bytes -> Decoded, hash: Bytes -> Hash, known: iset<Bytes>, h: Hash, a: Bytes, b: Bytes)
    requires Apart(hash, known) && Familiar(dec, hash, known, h, a) && Familiar(dec, hash, known, h, b)
    ensures dec(a) == dec(b)
  {}

  class ChunkSource {
    const dec: Bytes -> Decoded
    const hash: Bytes -> Hash
    const store: SharedCache
    ghost const known: iset<Bytes>
    var needed: set<Hash>
    var inbox: seq<Msg>

    constructor (dec: Bytes -> Decoded, hash: Bytes -> Hash, store: SharedCache, ghost known: iset<Bytes>)
      ensures this.dec == dec && this.hash == hash && this.store == store && this.known == known && needed == {}
      ensures inbox == []
    {
      this.dec, this.hash, this.store, this.known := dec, hash, store, known;
      needed, inbox := {}, [];
    }

    ghost function Good(): (Hash, Bytes) -> bool { (h: Hash, f: Bytes) => Familiar(dec, hash, known, h, f) }

    /** Nothing in play collides, all in the cache is in play, and so is all that others put in. */
    ghost predicate Sound()
      reads this, store, store.cache
    {
      Apart(hash, known) && Vouched(store.Frames(), Good()) && Clean(store.others, Good())
    }

    /** Both sides are in step, with these chunks still to come. */
    ghost predicate Standing(rest: seq<Chunk>)
      reads this, store, store.cache
    {
      Sound() && InStep(rest, needed, inbox, store.Frames(), store.mine)
    }

    /** Ask for the chunk if the cache lacks it. */
    method Ask(h: Hash)
      requires store.Valid()
      modifies this`needed, store`clock, store.cache
      ensures store.Valid() && (old(Sound()) ==> Sound()) && Keeps(old(store.Frames()), store.Frames(), store.mine)
      ensures old(needed) <= needed <= old(needed) + {h} && (h in needed || h in store.Frames())
      ensures h in needed && h !in old(needed) ==> h !in store.Frames()
    {
      hide Apart, Vouched, Clean, Familiar, Keeps, SharedCache.Valid, SharedCache.Frames;
      store.Yield(Good());
      if h !in needed {
        var r := store.Locate(h);
        if r.None? {
          needed := needed + {h};
        }
      }
    }

    /** Ask for what the cache lacks, each chunk once, and for nothing it had when the delivery began. */
    method Request(recipe: Recipe)
      requires store.Valid() && needed == {} && forall e <- recipe :: e.0 in store.mine
      modifies this`needed, store`clock, store.cache
      ensures store.Valid() && (old(Sound()) ==> Sound())
      ensures (forall h <- needed :: exists e :: e in recipe && e.0 == h)
      ensures forall e <- recipe :: e.0 in needed || e.0 in store.Frames()
      ensures forall h <- needed :: h !in old(store.Frames())
    {
      hide Sound, SharedCache.Valid, SharedCache.Frames, Keeps;
      KeepsAll(store.Frames(), store.mine);
      for i := 0 to |recipe|
        invariant store.Valid() && (old(Sound()) ==> Sound())
        invariant (forall h <- needed :: exists e :: e in recipe && e.0 == h)
        invariant forall e <- recipe[..i] :: e.0 in needed || e.0 in store.Frames()
        invariant Keeps(old(store.Frames()), store.Frames(), store.mine)
        invariant forall h <- needed :: h !in old(store.Frames())
      {
        ghost var before, asked := store.Frames(), needed;
        assert recipe[..i + 1] == recipe[..i] + [recipe[i]];
        assert recipe[i] in recipe;
        Ask(recipe[i].0);
        StillThere(recipe[..i], asked, before, store.Frames(), store.mine);
        KeepsOn(old(store.Frames()), before, store.Frames(), store.mine);
        NotThere(old(store.Frames()), store.Frames(), store.mine, recipe[i].0);
      }
      assert recipe[..|recipe|] == recipe;
    }

    /** The hub asks and the worker answers. */
    method Exchange(files: seq<seq<Chunk>>, recipe: Recipe)
      requires store.Valid() && Sound() && needed == {} && recipe == RecipeOf(Flat(files))
      requires forall e <- recipe :: e.0 in store.mine
      modifies this, store`clock, store.cache
      ensures store.Valid() && Standing(Flat(files)) && inbox == Emits(Flat(files), needed) + [Eof]
      ensures Unheld(inbox, old(store.Frames()))
    {
      hide Apart, Vouched, Clean, SharedCache.Valid, SharedCache.Frames, Emits, RecipeOf;
      var all := Flat(files);
      Request(recipe);
      forall h: Hash
        ensures h in Hashes(all) <==> exists e :: e in recipe && e.0 == h
      {
        RecipeHashes(all, h);
      }
      var sent, msgs := SendChunks(files, needed);
      inbox := msgs;
      Requested(all, needed, store.Frames(), store.mine);
      EmitsAsked(all, needed);
    }

    method Receive(h: Hash) returns (r: Got)
      modifies this`inbox
      ensures r.Got? <==> old(inbox) != [] && old(inbox)[0].Frame? && old(inbox)[0].hash == h
      ensures r.Got? ==> r.frame == old(inbox)[0].zstd
      ensures r.Got? ==> inbox == old(inbox)[1..]
    {
      if inbox == [] { return Failed; }
      var m := inbox[0];
      inbox := inbox[1..];
      if m.Frame? && m.hash == h { return Got(m.zstd); }
      return Failed;
    }

    /** From the wire: checked, then cached. */
    method Take(h: Hash, size: nat, ghost c: Chunk, ghost rest: seq<Chunk>) returns (r: Got)
      requires store.Valid() && h in needed
      modifies this, store.cache
      ensures store.Valid() && (r.Got? ==> Fits(dec, hash, r.frame, h, size))
      ensures Next(h, size, c) && old(Standing([c] + rest)) ==> r.Got? && dec(r.frame) == dec(c.frame) && Standing(rest)
    {
      hide Apart, Vouched, Clean, Emits;
      ghost var good := Next(h, size, c) && Standing([c] + rest);
      if good { StepSent(c, rest, needed, inbox, store.Frames(), store.mine); }
      needed := needed - {h};
      r := Receive(h);
      if r.Failed? { return; }
      if !Fits(dec, hash, r.frame, h, size) { return Failed; }
      var ok := store.Admit(h, r.frame, Good());
      if !ok { return Failed; }
    }

    /** From the cache, others using it meanwhile. */
    method Reuse(h: Hash, size: nat, ghost c: Chunk, ghost rest: seq<Chunk>) returns (r: Got)
      requires store.Valid() && h !in needed
      modifies store`clock, store.cache
      ensures store.Valid() && (r.Got? ==> Fits(dec, hash, r.frame, h, size))
      ensures Next(h, size, c) && old(Standing([c] + rest)) ==> r.Got? && dec(r.frame) == dec(c.frame) && Standing(rest)
    {
      hide Apart, Clean, Emits, Keeps, InStep, Fits, Familiar;
      ghost var good := Next(h, size, c) && Standing([c] + rest);
      ghost var before := store.Frames();
      var f := store.Fetch(h, Good());
      if good {
        StepCached(c, rest, needed, inbox, before, store.mine);
        StepKept(rest, needed, inbox, before, store.Frames(), store.mine);
        SamePlain(dec, hash, known, h, f.value, c.frame);
        FitsAlike(dec, hash, f.value, c.frame, h, size);
      }
      if f.None? { return Failed; }
      if !Fits(dec, hash, f.value, h, size) { return Failed; }
      r := Got(f.value);
    }

    /** The chunk is the recipe's next and the worker has it as the recipe says. */
    ghost predicate Next(h: Hash, size: nat, c: Chunk)
    {
      c.hash == h && c.size == size && Fits(dec, hash, c.frame, h, size) && Familiar(dec, hash, known, h, c.frame)
    }

    /** Whatever the worker sends, a frame is handed on only if it decodes to the recipe's chunk. */
    method Get(h: Hash, size: nat, ghost c: Chunk, ghost rest: seq<Chunk>) returns (r: Got)
      requires store.Valid()
      modifies this, store`clock, store.cache
      ensures store.Valid() && (r.Got? ==> Fits(dec, hash, r.frame, h, size))
      ensures Next(h, size, c) && old(Standing([c] + rest)) ==> r.Got? && dec(r.frame) == dec(c.frame) && Standing(rest)
    {
      hide Apart, Vouched, Clean, InStep, Fits, Familiar, Keeps;
      ghost var good := Next(h, size, c) && Standing([c] + rest);
      ghost var before := store.Frames();
      store.Yield(Good());
      if good { StepKept([c] + rest, needed, inbox, before, store.Frames(), store.mine); }
      if h in needed {
        r := Take(h, size, c, rest);
      } else {
        r := Reuse(h, size, c, rest);
      }
    }

    lemma Ended()
      requires Standing([])
      ensures inbox == [Eof]
    {}

    method Finish() returns (ok: bool)
      modifies this`inbox
      ensures ok <==> old(inbox) != [] && old(inbox)[0] == Eof
      ensures ok ==> inbox == old(inbox)[1..]
    {
      if inbox == [] { return false; }
      ok := inbox[0] == Eof;
      inbox := inbox[1..];
    }

    /** Assemble one output from frames received and frames cached. */
    method Assemble(recipe: Recipe, ghost chunks: seq<Chunk>, ghost rest: seq<Chunk>) returns (ok: bool,
          frames: seq<Bytes>)
      requires store.Valid()
      modifies this, store`clock, store.cache
      ensures store.Valid() && (ok ==> AllFit(dec, hash, recipe, frames))
      ensures recipe == RecipeOf(chunks) && Honest(dec, hash, known, chunks) && old(Standing(chunks + rest)) ==>
        ok && Texts(dec, frames) == Texts(dec, Packed(chunks)) && Standing(rest)
    {
      hide Standing, SharedCache.Valid, Fits, Familiar, Texts, RecipeOf, Packed;
      frames := [];
      ghost var good := recipe == RecipeOf(chunks) && Honest(dec, hash, known, chunks) && Standing(chunks + rest);
      assert chunks[0..] == chunks;
      TextsNone(dec, chunks);
      if good { RecipeAt(chunks, 0); }
      for i := 0 to |recipe|
        invariant store.Valid() && |frames| == i && AllFit(dec, hash, recipe[..i], frames)
        invariant good ==> Standing(chunks[i..] + rest) && Texts(dec, frames) == Texts(dec, Packed(chunks[..i]))
      {
        ghost var c := if i < |chunks| then chunks[i] else Chunk(recipe[i].0, 0, []);
        ghost var more := if i < |chunks| then chunks[i + 1..] + rest else [];
        if good {
          RecipeAt(chunks, i);
          assert chunks[i..] + rest == [c] + more;
          assert c in chunks;
        }
        var r := Get(recipe[i].0, recipe[i].1, c, more);
        if r.Failed? { return false, frames; }
        if good { TextsOn(dec, frames, chunks, i, r.frame); }
        frames := frames + [r.frame];
      }
      assert recipe[..|recipe|] == recipe;
      if good {
        assert chunks[|chunks|..] + rest == rest && chunks[..|chunks|] == chunks;
      }
      ok := true;
    }

    /** Assemble all outputs. Whatever the worker sends, what is published fits the recipes. */
    method AssembleAll(recipes: seq<Recipe>, ghost files: seq<seq<Chunk>>) returns (ok: bool,
          published: seq<seq<Bytes>>)
      requires store.Valid()
      modifies this, store`clock, store.cache
      ensures store.Valid()
      ensures ok ==>
        |published| == |recipes| && forall i | 0 <= i < |recipes| :: AllFit(dec, hash, recipes[i], published[i])
      ensures Announces(recipes, files) && Honest(dec, hash, known, Flat(files)) && old(Standing(Flat(files))) ==>
        && ok && Standing([])
        && forall i | 0 <= i < |files| :: Texts(dec, published[i]) == Texts(dec, Packed(files[i]))
    {
      hide Standing, SharedCache.Valid, SharedCache.Frames, Honest, AllFit, Texts, Packed, RecipeOf;
      published := [];
      ghost var good := Announces(recipes, files) && Honest(dec, hash, known, Flat(files)) && Standing(Flat(files));
      assert files[0..] == files;
      for i := 0 to |recipes|
        invariant store.Valid() && |published| == i
        invariant forall k | 0 <= k < i :: AllFit(dec, hash, recipes[k], published[k])
        invariant good ==>
          Standing(Flat(files[i..]))
          && forall k | 0 <= k < i :: Texts(dec, published[k]) == Texts(dec, Packed(files[k]))
      {
        ghost var file := if i < |files| then files[i] else [];
        ghost var more := if i < |files| then Flat(files[i + 1..]) else [];
        if good {
          assert Flat(files[i..]) == file + more by { assert files[i..][1..] == files[i + 1..]; }
          HonestPart(dec, hash, known, files, i);
        }
        var frames;
        ok, frames := Assemble(recipes[i], file, more);
        if !ok { return false, published; }
        published := published + [frames];
      }
      if good { assert files[|files|..] == []; }
      ok := true;
    }
  }

  /** No frame sent is one the cache had. */
  predicate Unheld(msgs: seq<Msg>, frames: Frames) { forall m <- msgs :: m.Frame? ==> m.hash !in frames }

  lemma KeepsAll(a: Frames, pinned: multiset<Hash>)
    ensures Keeps(a, a, pinned)
  {}

  lemma KeepsOn(a: Frames, b: Frames, c: Frames, pinned: multiset<Hash>)
    requires Keeps(a, b, pinned) && Keeps(b, c, pinned)
    ensures Keeps(a, c, pinned)
  {}

  lemma NotThere(a: Frames, b: Frames, pinned: multiset<Hash>, h: Hash)
    requires Keeps(a, b, pinned) && h in pinned
    ensures h !in b ==> h !in a
  {}

  /** Every frame decodes to the chunk the recipe has in its place. */
  predicate AllFit(dec: Bytes -> Decoded, hash: Bytes -> Hash, recipe: Recipe, frames: seq<Bytes>)
  {
    |frames| == |recipe| && forall i | 0 <= i < |recipe| :: Fits(dec, hash, frames[i], recipe[i].0, recipe[i].1)
  }

  lemma FitsAlike(dec: Bytes -> Decoded, hash: Bytes -> Hash, a: Bytes, b: Bytes, h: Hash, size: nat)
    requires dec(a) == dec(b)
    ensures Fits(dec, hash, a, h, size) <==> Fits(dec, hash, b, h, size)
  {}

  lemma StillThere(recipe: Recipe, needed: set<Hash>, a: Frames, b: Frames, pinned: multiset<Hash>)
    requires Keeps(a, b, pinned) && forall e <- recipe :: e.0 in needed || e.0 in a
    ensures forall e <- recipe :: e.0 in pinned ==> e.0 in needed || e.0 in b
  {}

  /** The chunks of all outputs, then of all extras. */
  function FlatRecipe(recipes: seq<Recipe>): Recipe
  {
    if recipes == [] then [] else recipes[0] + FlatRecipe(recipes[1..])
  }

  predicate Announces(recipes: seq<Recipe>, files: seq<seq<Chunk>>)
  {
    |recipes| == |files| && forall i | 0 <= i < |files| :: recipes[i] == RecipeOf(files[i])
  }

  lemma AnnouncesLength(recipes: seq<Recipe>, files: seq<seq<Chunk>>)
    requires Announces(recipes, files)
    ensures |recipes| == |files|
  {}

  lemma {:induction false} FlatOf(recipes: seq<Recipe>, files: seq<seq<Chunk>>)
    requires Announces(recipes, files)
    ensures FlatRecipe(recipes) == RecipeOf(Flat(files))
  {
    if files != [] {
      FlatOf(recipes[1..], files[1..]);
    }
  }

  lemma RecipeHashes(chunks: seq<Chunk>, h: Hash)
    ensures h in Hashes(chunks) <==> exists e :: e in RecipeOf(chunks) && e.0 == h
  {
    if h in Hashes(chunks) {
      var c :| c in chunks && c.hash == h;
      var i :| 0 <= i < |chunks| && chunks[i] == c;
      assert RecipeOf(chunks)[i] == (h, c.size);
    }
    forall i | 0 <= i < |chunks|
      ensures RecipeOf(chunks)[i].0 in Hashes(chunks)
    {
      assert chunks[i] in chunks;
    }
  }

  method HashesOf(recipe: Recipe) returns (hashes: seq<Hash>)
    ensures forall h: Hash :: h in multiset(hashes) <==> exists e :: e in recipe && e.0 == h
  {
    hashes := [];
    for i := 0 to |recipe|
      invariant forall h: Hash :: h in multiset(hashes) <==> exists e :: e in recipe[..i] && e.0 == h
    {
      assert recipe[..i + 1] == recipe[..i] + [recipe[i]];
      hashes := hashes + [recipe[i].0];
    }
    assert recipe[..|recipe|] == recipe;
  }

  /**
   One delivery, both sides. Whatever the cache holds at the start and whatever others do
   to it meanwhile, the two loops stay in step to the end marker, each output reads as the
   worker packed it, and the guard on its chunks is gone at the end. On the wire no chunk
   goes that the cache had at the start, and none twice.
   */
  method Deliver(
      dec: Bytes -> Decoded, hash: Bytes -> Hash, ghost known: iset<Bytes>, store: SharedCache,
      files: seq<seq<Chunk>>, recipes: seq<Recipe>)
    returns (ok: bool, published: seq<seq<Bytes>>, wire: seq<Msg>)
    requires store.Valid() && Announces(recipes, files) && Honest(dec, hash, known, Flat(files)) && Apart(hash, known)
    requires Vouched(store.Frames(), (h: Hash, f: Bytes) => Familiar(dec, hash, known, h, f))
    requires Clean(store.others, (h: Hash, f: Bytes) => Familiar(dec, hash, known, h, f))
    modifies store, store.cache
    ensures ok && |published| == |files|
    ensures forall i | 0 <= i < |files| :: Texts(dec, published[i]) == Texts(dec, Packed(files[i]))
    ensures store.Valid() && store.mine == old(store.mine)
    ensures Unheld(wire, old(store.Frames())) && NoRepeats(wire)
  {
    hide ChunkSource.Standing, SharedCache.Valid, SharedCache.Frames, Apart, Vouched, Clean, Familiar, Texts, Packed;
    hide Fits, FlatRecipe, RecipeOf, Emits, NoRepeats, Unheld, InStep, Flat, Announces, Honest;
    var src := new ChunkSource(dec, hash, store, known);
    FlatOf(recipes, files);
    assert |recipes| == |files| by { AnnouncesLength(recipes, files); }
    var recipe := FlatRecipe(recipes);
    var hashes := HashesOf(recipe);
    store.Pin(hashes);
    src.Exchange(files, recipe);
    wire := src.inbox;
    SentOnce(Flat(files), src.needed);
    ok, published := src.AssembleAll(recipes, files);
    src.Ended();
    ok := src.Finish();
    store.Unpin(hashes);
    assert old(store.mine) + multiset(hashes) - multiset(hashes) == old(store.mine);
  }

  /** The first delivery of a hub with an empty cache and nobody else using it. */
  method DeliverFirst(
      dec: Bytes -> Decoded, hash: Bytes -> Hash, ghost known: iset<Bytes>, budget: nat,
      files: seq<seq<Chunk>>, recipes: seq<Recipe>)
    returns (ok: bool, published: seq<seq<Bytes>>)
    requires Announces(recipes, files) && Honest(dec, hash, known, Flat(files)) && Apart(hash, known)
    ensures ok && |published| == |files|
    ensures forall i | 0 <= i < |files| :: Texts(dec, published[i]) == Texts(dec, Packed(files[i]))
  {
    hide Apart, Honest, Texts, Packed, Announces;
    var verifies := (h: Hash, f: Bytes) => dec(f).Plain? && hash(dec(f).data) == h;
    var cache := new ChunkCache.Cache(verifies, map[], (id: nat) => [], budget, ChunkStoreOpen.SealBytes(budget), []);
    var store := new SharedCache(cache, (k: nat) => [], multiset{});
    var wire;
    ok, published, wire := Deliver(dec, hash, known, store, files, recipes);
  }

  lemma Requested(all: seq<Chunk>, needed: set<Hash>, frames: Frames, pinned: multiset<Hash>)
    requires forall e <- RecipeOf(all) :: e.0 in pinned && (e.0 in needed || e.0 in frames)
    ensures InStep(all, needed, Emits(all, needed) + [Eof], frames, pinned)
  {
    forall c | c in all
      ensures c.hash in pinned && (c.hash in needed || c.hash in frames)
    {
      var i :| 0 <= i < |all| && all[i] == c;
      assert RecipeOf(all)[i] == (c.hash, c.size);
    }
  }

  lemma {:induction false} HonestPart(dec: Bytes -> Decoded, hash: Bytes -> Hash, known: iset<Bytes>,
        files: seq<seq<Chunk>>, i: nat)
    requires i < |files| && Honest(dec, hash, known, Flat(files))
    ensures Honest(dec, hash, known, files[i])
  {
    if i > 0 {
      assert Honest(dec, hash, known, Flat(files[1..]));
      HonestPart(dec, hash, known, files[1..], i - 1);
    }
  }
}

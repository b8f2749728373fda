/** Results as a worker announces them: recipes on the wire, and the set of outputs. */
module Announced {
  import opened StorePath
  import opened Bytes
  import opened Pack
  import opened Chunker
  import opened Delivery

  const MAX_NAR_BYTES: nat := 64 * 1024 * 1024 * 1024

  function Sum(sizes: seq<nat>): nat { if sizes == [] then 0 else Sum(sizes[..|sizes| - 1]) + sizes[|sizes| - 1] }

  /** A well-formed recipe of chunks and archives no larger than either side accepts. */
  predicate Acceptable(hashes: Bytes, sizes: seq<nat>)
  {
    && |hashes| == 32 * |sizes|
    && (forall s <- sizes :: s <= MAX_CHUNK_BYTES) && Sum(sizes) <= MAX_NAR_BYTES
  }

  lemma {:induction false} SumGrows(sizes: seq<nat>, i: nat)
    requires i <= |sizes|
    ensures Sum(sizes[..i]) <= Sum(sizes)
  {
    if i < |sizes| {
      SumGrows(sizes[..|sizes| - 1], i);
      assert sizes[..|sizes| - 1][..i] == sizes[..i];
    } else {
      assert sizes[..i] == sizes;
    }
  }

  /** parse_recipe stops at the first chunk that breaks a bound. */
  method ParseRecipe(hashes: Bytes, sizes: seq<nat>) returns (ok: bool, recipe: Recipe)
    ensures ok == Acceptable(hashes, sizes)
    ensures ok ==>
      |recipe| == |sizes| && forall i | 0 <= i < |sizes| :: recipe[i] == (hashes[32 * i..32 * i + 32], sizes[i])
  {
    recipe := [];
    if |hashes| % 32 != 0 || |hashes| / 32 != |sizes| { return false, []; }
    var total := 0;
    for i := 0 to |sizes|
      invariant total == Sum(sizes[..i]) <= MAX_NAR_BYTES && |recipe| == i
      invariant forall k | 0 <= k < i ::
        sizes[k] <= MAX_CHUNK_BYTES && recipe[k] == (hashes[32 * k..32 * k + 32], sizes[k])
    {
      var s := sizes[i];
      assert sizes[..i + 1][..i] == sizes[..i];
      total := total + s;
      if s > MAX_CHUNK_BYTES || total > MAX_NAR_BYTES {
        SumGrows(sizes, i + 1);
        assert s in sizes;
        return false, [];
      }
      recipe := recipe + [(hashes[32 * i..32 * i + 32], s)];
    }
    assert sizes[..|sizes|] == sizes;
    ok := true;
  }

  // ---- what the worker announces is what the hub parses ---------------------------------------

  function HashBytes(chunks: seq<Chunk>): Bytes
  {
    if chunks == [] then [] else HashBytes(chunks[..|chunks| - 1]) + chunks[|chunks| - 1].hash
  }

  function Sizes(chunks: seq<Chunk>): seq<nat> { seq(|chunks|, i requires 0 <= i < |chunks| => chunks[i].size) }

  lemma {:induction false} HashAt(chunks: seq<Chunk>, i: nat)
    requires i < |chunks|
    ensures |HashBytes(chunks)| == 32 * |chunks| && HashBytes(chunks)[32 * i..32 * i + 32] == chunks[i].hash
  {
    var rest := chunks[..|chunks| - 1];
    HashLength(rest);
    if i < |rest| {
      HashAt(rest, i);
      assert HashBytes(chunks)[32 * i..32 * i + 32] == HashBytes(rest)[32 * i..32 * i + 32];
    }
  }

  lemma {:induction false} HashLength(chunks: seq<Chunk>)
    ensures |HashBytes(chunks)| == 32 * |chunks|
  {
    if chunks != [] { HashLength(chunks[..|chunks| - 1]); }
  }

  /** The recipe of an honest result survives the wire. */
  lemma {:induction false} RecipeRoundTrip(chunks: seq<Chunk>, recipe: Recipe)
    requires Acceptable(HashBytes(chunks), Sizes(chunks))
    requires |recipe| == |chunks|
    requires forall i | 0 <= i < |chunks| :: recipe[i] == (HashBytes(chunks)[32 * i..32 * i + 32], Sizes(chunks)[i])
    ensures recipe == RecipeOf(chunks)
  {
    forall i | 0 <= i < |chunks|
      ensures recipe[i] == RecipeOf(chunks)[i]
    {
      HashAt(chunks, i);
    }
  }

  // ---- the set of outputs ----------------------------------------------------------------------

  datatype Manifest = Manifest(path: Path, hashes: Bytes, sizes: seq<nat>)

  function Paths(reported: seq<Manifest>): set<Path> { set m | m in reported :: m.path }

  predicate Unrepeated(reported: seq<Manifest>)
  {
    forall i, j | 0 <= i < j < |reported| :: reported[i].path != reported[j].path
  }

  /** A result is taken if and only if it is exactly the requested outputs, each once, with good recipes. */
  method VerifySet(reported: seq<Manifest>, requested: set<Path>) returns (ok: bool, recipes: seq<Recipe>)
    ensures ok <==>
      && Unrepeated(reported) && Paths(reported) == requested
      && forall m <- reported :: Acceptable(m.hashes, m.sizes)
    ensures ok ==> |recipes| == |reported|
    ensures ok ==> forall i | 0 <= i < |reported| ::
      && |recipes[i]| == |reported[i].sizes| && |reported[i].hashes| == 32 * |reported[i].sizes|
      && forall k | 0 <= k < |recipes[i]| ::
        recipes[i][k] == (reported[i].hashes[32 * k..32 * k + 32], reported[i].sizes[k])
  {
    hide Acceptable;
    recipes := [];
    var seen: set<Path> := {};
    for i := 0 to |reported|
      invariant seen == Paths(reported[..i]) <= requested && Unrepeated(reported[..i]) && |recipes| == i
      invariant forall m <- reported[..i] :: Acceptable(m.hashes, m.sizes)
      invariant forall n | 0 <= n < i ::
        && |recipes[n]| == |reported[n].sizes| && |reported[n].hashes| == 32 * |reported[n].sizes|
        && forall k | 0 <= k < |recipes[n]| ::
          recipes[n][k] == (reported[n].hashes[32 * k..32 * k + 32], reported[n].sizes[k])
    {
      var o := reported[i];
      PathsOn(reported, i);
      if o.path !in requested || o.path in seen {
        Refused(reported, i, requested);
        return false, [];
      }
      seen := seen + {o.path};
      var fine, recipe := ParseRecipe(o.hashes, o.sizes);
      if !fine {
        assert o in reported;
        return false, [];
      }
      AcceptableLength(o.hashes, o.sizes);
      recipes := recipes + [recipe];
    }
    assert reported[..|reported|] == reported;
    ok := forall r <- requested :: r in seen;
    assert ok <==> seen == requested;
  }

  lemma AcceptableLength(hashes: Bytes, sizes: seq<nat>)
    requires Acceptable(hashes, sizes)
    ensures |hashes| == 32 * |sizes|
  {}

  lemma PathsOn(reported: seq<Manifest>, i: nat)
    requires i < |reported|
    ensures reported[..i + 1] == reported[..i] + [reported[i]]
    ensures Paths(reported[..i + 1]) == Paths(reported[..i]) + {reported[i].path}
    ensures Unrepeated(reported[..i]) && reported[i].path !in Paths(reported[..i]) ==> Unrepeated(reported[..i + 1])
    ensures Paths(reported[..i + 1]) <= Paths(reported)
  {
    assert reported[..i + 1] == reported[..i] + [reported[i]];
    assert forall k | 0 <= k < i :: reported[..i][k] in reported[..i];
  }

  lemma Refused(reported: seq<Manifest>, i: nat, requested: set<Path>)
    requires i < |reported| && (reported[i].path !in requested || reported[i].path in Paths(reported[..i]))
    ensures !(Unrepeated(reported) && Paths(reported) == requested)
  {
    assert reported[i] in reported;
    if reported[i].path in Paths(reported[..i]) {
      var m :| m in reported[..i] && m.path == reported[i].path;
      var k :| 0 <= k < i && reported[k] == m;
    }
  }
}

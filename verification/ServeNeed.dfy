/**
 How the hub answers a request for chunks: manifest by manifest, from the cache as far as it
 goes and by packing the path again for the rest.
 */
module ServeNeed {
  import opened Relay
  import opened Graph

  type Recipe = seq<Chunk>

  /** The chunks some manifest names. */
  function Named(recipes: seq<Recipe>): set<Chunk> { set r, x | r in recipes && x in r :: x }

  /** What this manifest is the first to name. */
  function Todo(recipes: seq<Recipe>, k: nat, needed: set<Chunk>): set<Chunk>
    requires k < |recipes|
  {
    (set x | x in recipes[k] && x in needed) - Named(recipes[..k])
  }

  /** The path's chunks in order, those asked for. */
  function Repacked(recipe: Recipe, rest: set<Chunk>): seq<Chunk>
  {
    if recipe == [] then [] else
      var x := recipe[|recipe| - 1];
      Repacked(recipe[..|recipe| - 1], rest) + if x in rest then [x] else []
  }

  /** `hits` are the chunks read from the cache for each manifest, in the order they were sent. */
  predicate Plausible(recipes: seq<Recipe>, needed: set<Chunk>, hits: seq<seq<Chunk>>)
  {
    && |hits| == |recipes|
    && forall k | 0 <= k < |recipes| :: Distinct(hits[k]) && Elems(hits[k]) <= Todo(recipes, k, needed)
  }

  function Answer(recipes: seq<Recipe>, needed: set<Chunk>, hits: seq<seq<Chunk>>): seq<Chunk>
    requires |hits| == |recipes|
  {
    if recipes == [] then [] else
      var n := |recipes| - 1;
      Answer(recipes[..n], needed, hits[..n])
      + (hits[n] + Repacked(recipes[n], Todo(recipes, n, needed) - Elems(hits[n])))
  }

  // ---- what is in an answer ---------------------------------------------------------------

  lemma NamedOn(recipes: seq<Recipe>, r: Recipe)
    ensures Named(recipes + [r]) == Named(recipes) + Elems(r)
  {
    var all := recipes + [r];
    assert all[|recipes|] == r;
    assert forall s <- recipes :: s in all;
    assert forall s <- all :: s in recipes || s == r;
    forall x: Chunk
      ensures x in Named(all) <==> x in Named(recipes) || x in r
    {
      if x in r { assert r in all; }
      if x in Named(recipes) {
        var s :| s in recipes && x in s;
        assert s in all;
      }
    }
  }

  lemma PlausibleRest(recipes: seq<Recipe>, needed: set<Chunk>, hits: seq<seq<Chunk>>)
    requires recipes != [] && Plausible(recipes, needed, hits)
    ensures Plausible(recipes[..|recipes| - 1], needed, hits[..|recipes| - 1])
  {
    hide Distinct;
    var n := |recipes| - 1;
    forall k | 0 <= k < n
      ensures Distinct(hits[..n][k]) && Elems(hits[..n][k]) <= Todo(recipes[..n], k, needed)
    {
      assert recipes[..n][..k] == recipes[..k];
    }
  }

  lemma {:induction false} RepackedTimes(recipe: Recipe, rest: set<Chunk>, x: Chunk)
    ensures multiset(Repacked(recipe, rest))[x] == if x in rest then multiset(recipe)[x] else 0
  {
    if recipe != [] {
      var short, y := recipe[..|recipe| - 1], recipe[|recipe| - 1];
      assert recipe == short + [y];
      RepackedTimes(short, rest, x);
    }
  }

  lemma {:induction false} DistinctTimes(s: seq<Chunk>, x: Chunk)
    requires Distinct(s)
    ensures multiset(s)[x] == if x in s then 1 else 0
  {
    if s != [] {
      var short, y := s[..|s| - 1], s[|s| - 1];
      assert s == short + [y];
      DistinctTimes(short, x);
    }
  }

  /** The first manifest that names the chunk. */
  function First(recipes: seq<Recipe>, x: Chunk): (k: nat)
    requires x in Named(recipes)
    ensures k < |recipes| && x in recipes[k] && x !in Named(recipes[..k])
  {
    var n := |recipes| - 1;
    NamedOn(recipes[..n], recipes[n]);
    assert recipes == recipes[..n] + [recipes[n]];
    if x in Named(recipes[..n]) then
      var k := First(recipes[..n], x);
      assert recipes[..n][..k] == recipes[..k];
      k
    else n
  }

  lemma FirstOnly(recipes: seq<Recipe>, x: Chunk, k: nat)
    requires k < |recipes| && x in recipes[k] && x !in Named(recipes[..k])
    ensures x in Named(recipes) && First(recipes, x) == k
  {
    assert recipes[k] in recipes;
    var j := First(recipes, x);
    if j < k { NamedBefore(recipes, j, k, x); }
  }

  lemma NamedBefore(recipes: seq<Recipe>, j: nat, k: nat, x: Chunk)
    requires j < k <= |recipes| && x in recipes[j]
    ensures x in Named(recipes[..k])
  {
    assert recipes[..k][j] == recipes[j] && recipes[j] in recipes[..k];
  }

  /** How often a chunk goes out: once from the cache, else as often as the first path naming it has it. */
  function Times(recipes: seq<Recipe>, needed: set<Chunk>, hits: seq<seq<Chunk>>, x: Chunk): nat
    requires |hits| == |recipes|
  {
    if x !in needed || x !in Named(recipes) then 0
    else if x in hits[First(recipes, x)] then 1 else multiset(recipes[First(recipes, x)])[x]
  }

  lemma PartTimes(recipe: Recipe, todo: set<Chunk>, hits: seq<Chunk>, x: Chunk)
    requires Distinct(hits) && Elems(hits) <= todo
    ensures multiset(hits + Repacked(recipe, todo - Elems(hits)))[x]
      == if x in hits then 1 else if x in todo then multiset(recipe)[x] else 0
  {
    hide Distinct;
    DistinctTimes(hits, x);
    RepackedTimes(recipe, todo - Elems(hits), x);
  }

  lemma TimesOn(recipes: seq<Recipe>, needed: set<Chunk>, hits: seq<seq<Chunk>>, x: Chunk)
    requires recipes != [] && Plausible(recipes, needed, hits)
    ensures var n := |recipes| - 1;
      Times(recipes, needed, hits, x) == Times(recipes[..n], needed, hits[..n], x)
        + if x in hits[n] then 1 else if x in Todo(recipes, n, needed) then multiset(recipes[n])[x] else 0
  {
    hide Distinct, Named;
    var n := |recipes| - 1;
    assert recipes == recipes[..n] + [recipes[n]];
    NamedOn(recipes[..n], recipes[n]);
    assert x in hits[n] ==> x in Elems(hits[n]);
    if x in Named(recipes[..n]) {
      var k := First(recipes[..n], x);
      assert recipes[..n][..k] == recipes[..k];
      FirstOnly(recipes, x, k);
    } else if x in recipes[n] {
      FirstOnly(recipes, x, n);
    }
  }

  lemma {:induction false} AnswerTimes(recipes: seq<Recipe>, needed: set<Chunk>, hits: seq<seq<Chunk>>, x: Chunk)
    requires Plausible(recipes, needed, hits)
    ensures multiset(Answer(recipes, needed, hits))[x] == Times(recipes, needed, hits, x)
  {
    if recipes != [] {
      var n := |recipes| - 1;
      hide Distinct, Named, Repacked, Times;
      PlausibleRest(recipes, needed, hits);
      AnswerTimes(recipes[..n], needed, hits[..n], x);
      PartTimes(recipes[n], Todo(recipes, n, needed), hits[n], x);
      TimesOn(recipes, needed, hits, x);
    }
  }

  /** An answer has exactly the chunks asked for that some manifest names. */
  lemma AnswerNames(recipes: seq<Recipe>, needed: set<Chunk>, hits: seq<seq<Chunk>>)
    requires Plausible(recipes, needed, hits)
    ensures Elems(Answer(recipes, needed, hits)) == needed * Named(recipes)
  {
    PlausibleLength(recipes, needed, hits);
    hide Plausible, Answer, Named;
    var all := Answer(recipes, needed, hits);
    forall x: Chunk
      ensures x in Elems(all) <==> x in needed * Named(recipes)
    {
      AnswerTimes(recipes, needed, hits, x);
      assert x in multiset(all) <==> x in all;
      if x in needed * Named(recipes) { assert x in multiset(recipes[First(recipes, x)]); }
    }
  }

  // ---- once? ------------------------------------------------------------------------------

  lemma {:induction false} OnceDistinct(s: seq<Chunk>)
    requires forall x: Chunk :: multiset(s)[x] <= 1
    ensures Distinct(s)
  {
    if s != [] {
      var short, y := s[..|s| - 1], s[|s| - 1];
      assert s == short + [y];
      forall x: Chunk
        ensures multiset(short)[x] <= 1
      {
        assert multiset(s)[x] <= 1;
      }
      OnceDistinct(short);
      assert multiset(s)[y] <= 1;
      assert y !in multiset(short);
    }
  }

  /** Each chunk asked for is once in the first path that has it. */
  predicate Unrepeated(recipes: seq<Recipe>, needed: set<Chunk>)
  {
    forall x <- needed :: x in Named(recipes) ==> multiset(recipes[First(recipes, x)])[x] == 1
  }

  lemma Cacheless(recipes: seq<Recipe>, needed: set<Chunk>) returns (hits: seq<seq<Chunk>>)
    ensures Plausible(recipes, needed, hits) && forall k | 0 <= k < |recipes| :: hits[k] == []
  {
    hits := seq(|recipes|, i => []);
  }

  /**
   Whatever the cache has, no chunk goes out twice, exactly if none of those asked for is
   repeated in the first path that has it. A path packed again sends each repeat.
   */
  lemma ShipsOnceIff(recipes: seq<Recipe>, needed: set<Chunk>)
    ensures (forall hits | Plausible(recipes, needed, hits) :: Distinct(Answer(recipes, needed, hits))) <==>
      Unrepeated(recipes, needed)
  {
    hide Answer, Named, Distinct;
    if Unrepeated(recipes, needed) {
      forall hits | Plausible(recipes, needed, hits)
        ensures Distinct(Answer(recipes, needed, hits))
      {
        forall x: Chunk
          ensures multiset(Answer(recipes, needed, hits))[x] <= 1
        {
          PlausibleLength(recipes, needed, hits);
          AnswerTimes(recipes, needed, hits, x);
        }
        OnceDistinct(Answer(recipes, needed, hits));
      }
    } else {
      var x :| x in needed && x in Named(recipes) && multiset(recipes[First(recipes, x)])[x] != 1;
      var hits := Cacheless(recipes, needed);
      PlausibleLength(recipes, needed, hits);
      AnswerTimes(recipes, needed, hits, x);
      assert x in multiset(recipes[First(recipes, x)]);
      if Distinct(Answer(recipes, needed, hits)) { DistinctTimes(Answer(recipes, needed, hits), x); }
    }
  }

  lemma PlausibleLength(recipes: seq<Recipe>, needed: set<Chunk>, hits: seq<seq<Chunk>>)
    requires Plausible(recipes, needed, hits)
    ensures |hits| == |recipes|
  {}

  /** One path with a chunk twice and nothing cached: it is sent twice. */
  lemma RepeatShipsTwice(x: Chunk)
    ensures Plausible([[x, x]], {x}, [[]]) && Answer([[x, x]], {x}, [[]]) == [x, x]
  {
    var recipes: seq<Recipe> := [[x, x]];
    assert recipes[..0] == [] && Named([]) == {};
    assert Todo(recipes, 0, {x}) == {x};
    var none: seq<Chunk> := [];
    assert Elems(none) == {} && {x} - {} == {x};
    assert [x, x][..1] == [x] && [x][..0] == [];
    assert Repacked([x], {x}) == [x] && Repacked([x, x], {x}) == [x] + [x];
    assert Answer([], {x}, []) == [];
  }

  // ---- the loops ---------------------------------------------------------------------------

  lemma SomeOf(s: set<Chunk>) returns (x: Chunk)
    requires s != {}
    ensures x in s
  {
    assert (forall y: Chunk :: y !in s) ==> s == {};
    x :| x in s;
  }

  lemma NoneSent()
    ensures Distinct<Chunk>([]) && Elems<Chunk>([]) == {}
  {}

  lemma SentNew(sent: seq<Chunk>, h: Chunk)
    requires Distinct(sent) && h !in Elems(sent)
    ensures Distinct(sent + [h]) && Elems(sent + [h]) == Elems(sent) + {h}
  {
    assert (sent + [h])[|sent|] == h;
    assert forall x <- sent :: x in sent + [h];
  }

  /** Nothing unless all is cached. A frame that cannot be read ends it, and the rest is packed again. */
  method ServeCached(todo: set<Chunk>, allCached: bool, readable: nat) returns (rest: set<Chunk>, sent: seq<Chunk>)
    ensures Distinct(sent) && Elems(sent) <= todo && rest == todo - Elems(sent)
    ensures !allCached ==> sent == []
    ensures allCached && readable >= |todo| ==> rest == {}
  {
    hide Distinct, Elems;
    rest, sent := todo, [];
    NoneSent();
    if !allCached {
      return;
    }
    while rest != {} && |sent| < readable
      invariant Distinct(sent) && Elems(sent) <= todo && rest == todo - Elems(sent) && |sent| + |rest| == |todo|
      decreases rest
    {
      ghost var some := SomeOf(rest);
      var h :| h in rest;
      SentNew(sent, h);
      rest, sent := rest - {h}, sent + [h];
    }
  }

  /** Pack the path again and send what is asked for, in order. */
  method StreamPath(recipe: Recipe, todo: set<Chunk>) returns (sent: seq<Chunk>)
    ensures sent == Repacked(recipe, todo)
  {
    sent := [];
    for i := 0 to |recipe|
      invariant sent == Repacked(recipe[..i], todo)
    {
      assert recipe[..i + 1][..i] == recipe[..i];
      if recipe[i] in todo { sent := sent + [recipe[i]]; }
    }
    assert recipe[..|recipe|] == recipe;
  }

  lemma AnswerOn(recipes: seq<Recipe>, k: nat, needed: set<Chunk>, hits: seq<seq<Chunk>>, got: seq<Chunk>)
    requires k < |recipes| && Plausible(recipes[..k], needed, hits)
    requires Distinct(got) && Elems(got) <= Todo(recipes, k, needed)
    ensures Plausible(recipes[..k + 1], needed, hits + [got])
    ensures Answer(recipes[..k + 1], needed, hits + [got])
      == Answer(recipes[..k], needed, hits) + (got + Repacked(recipes[k], Todo(recipes, k, needed) - Elems(got)))
  {
    hide Distinct, Named, Repacked;
    var more, all := recipes[..k + 1], hits + [got];
    assert more[..k] == recipes[..k] && more[k] == recipes[k] && all[..k] == hits;
    forall j | 0 <= j < |more|
      ensures Distinct(all[j]) && Elems(all[j]) <= Todo(more, j, needed)
    {
      assert more[..j] == recipes[..j];
      if j < k { assert recipes[..k][..j] == recipes[..j]; }
    }
  }

  /**
   The answer to a request, whatever is cached: all that was asked for, or a failure exactly
   if something is in no manifest sent.
   */
  method Serve(recipes: seq<Recipe>, needed: set<Chunk>, allCached: nat -> bool, readable: nat -> nat)
    returns (ok: bool, sent: seq<Chunk>, ghost hits: seq<seq<Chunk>>)
    ensures ok == (needed <= Named(recipes)) && Elems(sent) == needed * Named(recipes)
    ensures Plausible(recipes, needed, hits) && sent == Answer(recipes, needed, hits)
  {
    hide Distinct, Named, Repacked, Answer, Plausible;
    var served: set<Chunk> := {};
    sent, hits := [], [];
    Nothing(recipes, needed);
    for k := 0 to |recipes|
      invariant served == needed * Named(recipes[..k])
      invariant Plausible(recipes[..k], needed, hits) && |hits| == k && sent == Answer(recipes[..k], needed, hits)
    {
      var todo := set x | x in recipes[k] && x in needed && x !in served;
      assert todo == Todo(recipes, k, needed);
      assert recipes[..k + 1] == recipes[..k] + [recipes[k]];
      NamedOn(recipes[..k], recipes[k]);
      served := served + todo;
      var rest, got := ServeCached(todo, allCached(k), readable(k));
      var more := StreamPath(recipes[k], rest);
      AnswerOn(recipes, k, needed, hits, got);
      sent := sent + (got + more);
      hits := hits + [got];
    }
    assert recipes[..|recipes|] == recipes;
    AnswerNames(recipes, needed, hits);
    SameSize(served, needed);
    ok := |served| == |needed|;
  }

  lemma Nothing(recipes: seq<Recipe>, needed: set<Chunk>)
    ensures Named(recipes[..0]) == {} && Plausible(recipes[..0], needed, []) && Answer(recipes[..0], needed, []) == []
  {}

  lemma {:induction false} SameSize(a: set<Chunk>, b: set<Chunk>)
    requires a <= b
    ensures |a| == |b| <==> b <= a
  {
    assert b == a + (b - a);
    if |a| == |b| { assert b - a == {}; } else { assert b != a; }
  }
}

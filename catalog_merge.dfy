/** The catalog merge of loadUserData: the static catalog with each recipe's favorite flag
    set from the user's saved records, followed by the saved recipes the catalog lacks. */
module CatalogMerge {
  import opened Types
  import opened Constants

  /** Some recipe in `rs` has the id (the lookups of App.tsx:90 and App.tsx:96 succeed). */
  predicate HasId(rs: seq<Recipe>, id: string) {
    exists r | r in rs :: r.id == id
  }

  function Ids(rs: seq<Recipe>): set<string> {
    set r | r in rs :: r.id
  }

  predicate IdsUnique(rs: seq<Recipe>) {
    forall i, j :: 0 <= i < j < |rs| ==> rs[i].id != rs[j].id
  }

  /** The `map` step: every catalog recipe, favorite exactly when a saved record has its id. */
  function MarkFavorites(catalog: seq<Recipe>, saved: seq<Recipe>): seq<Recipe> {
    seq(|catalog|, i requires 0 <= i < |catalog| => catalog[i].(isFavorite := HasId(saved, catalog[i].id)))
  }

  /** Marking favorites changes no id. */
  lemma MarkFavoritesIds(catalog: seq<Recipe>, saved: seq<Recipe>)
    ensures Ids(MarkFavorites(catalog, saved)) == Ids(catalog)
  {
    var marked := MarkFavorites(catalog, saved);
    forall id | id in Ids(catalog) ensures id in Ids(marked) {
      var r :| r in catalog && r.id == id;
      var i :| 0 <= i < |catalog| && catalog[i] == r;
      assert marked[i].id == id;
    }
  }

  /** The `forEach` step over the first |s| saved recipes, as the loop performs it: each one is
      pushed unless a recipe with its id is already in the list built so far. */
  function AppendUnseen(acc: seq<Recipe>, s: seq<Recipe>): seq<Recipe>
    decreases |s|
  {
    if s == [] then acc
    else
      var prev := AppendUnseen(acc, s[..|s| - 1]);
      if HasId(prev, s[|s| - 1].id) then prev else prev + [s[|s| - 1]]
  }

  /** The merged working set that loadUserData installs. */
  function Merge(catalog: seq<Recipe>, saved: seq<Recipe>): seq<Recipe> {
    AppendUnseen(MarkFavorites(catalog, saved), saved)
  }

  /** The merge as the source runs it: copy and mark the catalog, then push unseen saved recipes. */
  method MergeSavedRecipes(catalog: seq<Recipe>, saved: seq<Recipe>) returns (merged: seq<Recipe>)
    ensures merged == Merge(catalog, saved)
  {
    merged := MarkFavorites(catalog, saved);
    var i := 0;
    while i < |saved|
      invariant 0 <= i <= |saved|
      invariant merged == AppendUnseen(MarkFavorites(catalog, saved), saved[..i])
    {
      var sr := saved[i];
      assert saved[..i + 1][..i] == saved[..i];
      if !HasId(merged, sr.id) {
        merged := merged + [sr];
      }
      i := i + 1;
    }
    assert saved[..|saved|] == saved;
  }

  /** Reference definition of the appended part: the saved recipes in store order, keeping only
      the first occurrence of each id and skipping ids in `seen`. */
  function Unseen(s: seq<Recipe>, seen: set<string>): seq<Recipe> {
    if s == [] then []
    else if s[0].id in seen then Unseen(s[1..], seen)
    else [s[0]] + Unseen(s[1..], seen + {s[0].id})
  }

  lemma IdsAppend(a: seq<Recipe>, b: seq<Recipe>)
    ensures Ids(a + b) == Ids(a) + Ids(b)
  {
    assert forall r :: r in a + b <==> r in a || r in b;
  }

  lemma HasIdIds(rs: seq<Recipe>, id: string)
    ensures HasId(rs, id) <==> id in Ids(rs)
  {
  }

  /** What the reference keeps: elements of `s` (unchanged), ids outside `seen`, each id once,
      and every id of `s` outside `seen`. */
  lemma UnseenFacts(s: seq<Recipe>, seen: set<string>)
    ensures forall r :: r in Unseen(s, seen) ==> r in s
    ensures Ids(Unseen(s, seen)) == Ids(s) - seen
    ensures IdsUnique(Unseen(s, seen))
  {
    UnseenFrom(s, seen);
    UnseenIds(s, seen);
    UnseenUnique(s, seen);
  }

  lemma {:induction false} UnseenFrom(s: seq<Recipe>, seen: set<string>)
    ensures forall r :: r in Unseen(s, seen) ==> r in s
  {
    if s != [] {
      if s[0].id in seen {
        UnseenFrom(s[1..], seen);
      } else {
        UnseenFrom(s[1..], seen + {s[0].id});
      }
    }
  }

  lemma {:induction false} UnseenIds(s: seq<Recipe>, seen: set<string>)
    ensures Ids(Unseen(s, seen)) == Ids(s) - seen
  {
    if s != [] {
      var rest := s[1..];
      assert s == [s[0]] + rest;
      IdsAppend([s[0]], rest);
      if s[0].id in seen {
        UnseenIds(rest, seen);
      } else {
        UnseenIds(rest, seen + {s[0].id});
        IdsAppend([s[0]], Unseen(rest, seen + {s[0].id}));
      }
    }
  }

  lemma {:induction false} UnseenUnique(s: seq<Recipe>, seen: set<string>)
    ensures IdsUnique(Unseen(s, seen))
  {
    if s != [] {
      var rest := s[1..];
      if s[0].id in seen {
        UnseenUnique(rest, seen);
      } else {
        var tail := Unseen(rest, seen + {s[0].id});
        UnseenUnique(rest, seen + {s[0].id});
        UnseenIds(rest, seen + {s[0].id});
        assert s[0].id !in Ids(tail);
        var u := [s[0]] + tail;
        forall i, j | 0 <= i < j < |u| ensures u[i].id != u[j].id {
          if i == 0 {
            assert u[j] == tail[j - 1];
            assert tail[j - 1] in tail;
          }
        }
      }
    }
  }

  /** The reference, taken one element further at the back. */
  lemma {:induction false} UnseenSnoc(s: seq<Recipe>, x: Recipe, seen: set<string>)
    ensures Unseen(s + [x], seen) ==
      if x.id in seen + Ids(s) then Unseen(s, seen) else Unseen(s, seen) + [x]
  {
    if s == [] {
      assert s + [x] == [x];
    } else {
      assert (s + [x])[1..] == s[1..] + [x];
      assert s == [s[0]] + s[1..];
      IdsAppend([s[0]], s[1..]);
      if s[0].id in seen {
        UnseenSnoc(s[1..], x, seen);
      } else {
        UnseenSnoc(s[1..], x, seen + {s[0].id});
      }
    }
  }

  /** The loop's result in closed form: the list it starts from, then the reference. */
  lemma {:induction false} AppendUnseenClosed(acc: seq<Recipe>, s: seq<Recipe>)
    ensures AppendUnseen(acc, s) == acc + Unseen(s, Ids(acc))
    decreases |s|
  {
    if s == [] {
    } else {
      var init, x := s[..|s| - 1], s[|s| - 1];
      assert s == init + [x];
      AppendUnseenClosed(acc, init);
      var prev := acc + Unseen(init, Ids(acc));
      UnseenFacts(init, Ids(acc));
      IdsAppend(acc, Unseen(init, Ids(acc)));
      HasIdIds(prev, x.id);
      assert HasId(prev, x.id) <==> x.id in Ids(acc) + Ids(init);
      UnseenSnoc(init, x, Ids(acc));
    }
  }

  /** Catalog part: the first |catalog| entries are the catalog recipes in catalog order, each
      favorite exactly when its id is among the saved records and otherwise unchanged. */
  lemma MergeCatalogPart(catalog: seq<Recipe>, saved: seq<Recipe>)
    ensures |Merge(catalog, saved)| >= |catalog|
    ensures forall i :: 0 <= i < |catalog| ==>
      Merge(catalog, saved)[i].isFavorite == HasId(saved, catalog[i].id) &&
      Merge(catalog, saved)[i] == catalog[i].(isFavorite := Merge(catalog, saved)[i].isFavorite)
  {
    AppendUnseenClosed(MarkFavorites(catalog, saved), saved);
  }

  /** Appended part: after the catalog come the saved recipes in store order, without the ones
      whose id the catalog or an earlier saved record already has, each kept as stored. */
  lemma MergeAppendedPart(catalog: seq<Recipe>, saved: seq<Recipe>)
    ensures |Merge(catalog, saved)| >= |catalog|
    ensures Merge(catalog, saved)[|catalog|..] == Unseen(saved, Ids(catalog))
    ensures forall r :: r in Merge(catalog, saved)[|catalog|..] ==> r in saved && r.id !in Ids(catalog)
  {
    var marked := MarkFavorites(catalog, saved);
    AppendUnseenClosed(marked, saved);
    MarkFavoritesIds(catalog, saved);
    UnseenFacts(saved, Ids(catalog));
  }

  /** The merged list loses no id and invents none. */
  lemma MergeIds(catalog: seq<Recipe>, saved: seq<Recipe>)
    ensures Ids(Merge(catalog, saved)) == Ids(catalog) + Ids(saved)
  {
    var marked := MarkFavorites(catalog, saved);
    MergeAppendedPart(catalog, saved);
    AppendUnseenClosed(marked, saved);
    UnseenFacts(saved, Ids(catalog));
    IdsAppend(marked, Unseen(saved, Ids(catalog)));
    MarkFavoritesIds(catalog, saved);
  }

  /** Uniqueness: with a catalog of distinct ids, no two merged entries share an id, whatever the
      saved records are (duplicates among them included). */
  lemma MergeIdsUnique(catalog: seq<Recipe>, saved: seq<Recipe>)
    requires IdsUnique(catalog)
    ensures IdsUnique(Merge(catalog, saved))
  {
    var marked := MarkFavorites(catalog, saved);
    var tail := Unseen(saved, Ids(catalog));
    MergeAppendedPart(catalog, saved);
    AppendUnseenClosed(marked, saved);
    UnseenFacts(saved, Ids(catalog));
    var m := Merge(catalog, saved);
    assert m == marked + tail;
    forall i, j | 0 <= i < j < |m| ensures m[i].id != m[j].id {
      if j < |catalog| {
        assert m[i].id == catalog[i].id && m[j].id == catalog[j].id;
      } else if i >= |catalog| {
        assert m[i] == tail[i - |catalog|] && m[j] == tail[j - |catalog|];
      } else {
        assert m[i].id == catalog[i].id;
        assert catalog[i] in catalog;
        assert m[j] == tail[j - |catalog|] && m[j] in tail;
      }
    }
  }

  /** Feeding a merged list back in as the saved records keeps the id set ... */
  lemma RemergeKeepsIds(catalog: seq<Recipe>, saved: seq<Recipe>)
    ensures Ids(Merge(catalog, Merge(catalog, saved))) == Ids(Merge(catalog, saved))
  {
    MergeIds(catalog, saved);
    MergeIds(catalog, Merge(catalog, saved));
  }

  /** ... but marks every catalog recipe favorite, since the lookup compares ids only; so the
      merge is not idempotent as soon as some catalog recipe is not saved. */
  lemma RemergeNotIdempotent(catalog: seq<Recipe>, saved: seq<Recipe>, k: nat)
    requires k < |catalog| && !HasId(saved, catalog[k].id)
    ensures |Merge(catalog, Merge(catalog, saved))| >= |catalog|
    ensures forall i :: 0 <= i < |catalog| ==> Merge(catalog, Merge(catalog, saved))[i].isFavorite
    ensures Merge(catalog, Merge(catalog, saved)) != Merge(catalog, saved)
  {
    var once := Merge(catalog, saved);
    MergeCatalogPart(catalog, saved);
    MergeCatalogPart(catalog, once);
    MergeIds(catalog, saved);
    forall i | 0 <= i < |catalog| ensures HasId(once, catalog[i].id) {
      assert catalog[i] in catalog;
      HasIdIds(once, catalog[i].id);
    }
    assert !once[k].isFavorite;
  }

  /** The catalog's ids "1" to "4" are distinct. */
  lemma MockRecipesIdsUnique()
    ensures IdsUnique(MockRecipes)
    ensures Ids(MockRecipes) == {"1", "2", "3", "4"}
  {
    var m := MockRecipes;
    assert |m| == 4;
    assert m[0].id == "1" && m[1].id == "2" && m[2].id == "3" && m[3].id == "4";
    assert forall r :: r in m <==> r == m[0] || r == m[1] || r == m[2] || r == m[3];
  }
}

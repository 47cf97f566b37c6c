/** filteredRecipes: the recipes shown by the dashboard and kitchen views, selected by a
    case-insensitive search text, a cuisine and the active view. */
module RecipeFilter {
  import opened Types

  /** `toLowerCase()` on the ASCII letters A to Z; every other character is kept. */
  function ToLower(s: string): (r: string)
    ensures |r| == |s|
  {
    seq(|s|, i requires 0 <= i < |s| => if 'A' <= s[i] <= 'Z' then (s[i] as int + 32) as char else s[i])
  }

  /** `s.includes(sub)`: `sub` occurs in `s` at some position. */
  predicate Includes(s: string, sub: string) {
    sub <= s || (s != [] && Includes(s[1..], sub))
  }

  /** The three conditions of the filter callback for one recipe. */
  predicate Matches(r: Recipe, query: string, cuisine: string, view: ViewState) {
    var q := ToLower(query);
    var matchesSearch :=
      Includes(ToLower(r.name), q) ||
      (exists t | t in r.healthTags :: Includes(ToLower(t), q)) ||
      Includes(ToLower(CuisineName(r.cuisine)), q);
    var matchesCuisine := cuisine == "All" || CuisineName(r.cuisine) == cuisine;
    var matchesView := if view == Kitchen then r.isFavorite else true;
    matchesSearch && matchesCuisine && matchesView
  }

  /** `recipes.filter(...)`: exactly the matching recipes, in list order. */
  function Filter(rs: seq<Recipe>, query: string, cuisine: string, view: ViewState): (r: seq<Recipe>)
    ensures forall x :: x in r <==> x in rs && Matches(x, query, cuisine, view)
    ensures |r| <= |rs|
  {
    if rs == [] then []
    else
      assert forall x :: x in rs <==> x == rs[0] || x in rs[1..];
      (if Matches(rs[0], query, cuisine, view) then [rs[0]] else []) + Filter(rs[1..], query, cuisine, view)
  }

  /** `a` is obtained from `b` by deleting elements. */
  predicate Subsequence(a: seq<Recipe>, b: seq<Recipe>)
    decreases |b|
  {
    if a == [] then true
    else if b == [] then false
    else (a[0] == b[0] && Subsequence(a[1..], b[1..])) || Subsequence(a, b[1..])
  }

  /** The filtered list keeps the recipes' relative order. */
  lemma {:induction false} FilterIsSubsequence(rs: seq<Recipe>, query: string, cuisine: string, view: ViewState)
    ensures Subsequence(Filter(rs, query, cuisine, view), rs)
  {
    if rs != [] {
      FilterIsSubsequence(rs[1..], query, cuisine, view);
      var f := Filter(rs, query, cuisine, view);
      var tail := Filter(rs[1..], query, cuisine, view);
      if Matches(rs[0], query, cuisine, view) {
        assert f == [rs[0]] + tail;
        assert f[1..] == tail;
      } else {
        assert f == tail;
      }
    }
  }

  /** The kitchen view shows favorites only. */
  lemma KitchenShowsFavorites(rs: seq<Recipe>, query: string, cuisine: string)
    ensures forall x :: x in Filter(rs, query, cuisine, Kitchen) ==> x.isFavorite
  {
  }

  /** With an empty search, cuisine "All" and any view but the kitchen, every recipe is shown. */
  lemma {:induction false} DefaultFilterShowsAll(rs: seq<Recipe>, view: ViewState)
    requires view != Kitchen
    ensures Filter(rs, "", "All", view) == rs
  {
    if rs != [] {
      DefaultFilterShowsAll(rs[1..], view);
      assert ToLower("") == "";
      assert Includes(ToLower(rs[0].name), "");
      assert [rs[0]] + rs[1..] == rs;
    }
  }

  lemma ToLowerIdempotent(s: string)
    ensures ToLower(ToLower(s)) == ToLower(s)
  {
  }

  /** The search is case-insensitive: lower-casing the query does not change the result. */
  lemma {:induction false} FilterCaseInsensitive(rs: seq<Recipe>, query: string, cuisine: string, view: ViewState)
    ensures Filter(rs, ToLower(query), cuisine, view) == Filter(rs, query, cuisine, view)
  {
    ToLowerIdempotent(query);
    if rs != [] {
      FilterCaseInsensitive(rs[1..], query, cuisine, view);
    }
  }

  /** Filtering a filtered list again changes nothing. */
  lemma {:induction false} FilterIdempotent(rs: seq<Recipe>, query: string, cuisine: string, view: ViewState)
    ensures Filter(Filter(rs, query, cuisine, view), query, cuisine, view) == Filter(rs, query, cuisine, view)
  {
    if rs != [] {
      FilterIdempotent(rs[1..], query, cuisine, view);
      var tail := Filter(rs[1..], query, cuisine, view);
      if Matches(rs[0], query, cuisine, view) {
        var f := [rs[0]] + tail;
        assert Filter(rs, query, cuisine, view) == f;
        assert f[0] == rs[0] && f[1..] == tail;
        assert Filter(f, query, cuisine, view) == [rs[0]] + Filter(tail, query, cuisine, view);
      } else {
        assert Filter(rs, query, cuisine, view) == tail;
      }
    }
  }
}

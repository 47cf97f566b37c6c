/** The per-element updates the handlers pass to their setters: `find`, the `map`s that flip a
    favorite or a checked flag, the `filter` that removes shopping items, and the `map` that turns
    a recipe's ingredients into new shopping items. */
module ListUpdates {
  import opened Types
  import opened CatalogMerge

  /** `k` is the index of the first recipe with id `id`. */
  predicate FirstRecipeAt(rs: seq<Recipe>, id: string, k: int) {
    0 <= k < |rs| && rs[k].id == id && forall j :: 0 <= j < k ==> rs[j].id != id
  }

  /** The recipe lookup of App.tsx:137: the first recipe with that id. */
  function FindRecipe(rs: seq<Recipe>, id: string): (r: Option<Recipe>)
    ensures r.None? <==> !HasId(rs, id)
    ensures r.Some? ==> exists k :: FirstRecipeAt(rs, id, k) && rs[k] == r.value
  {
    if rs == [] then None
    else if rs[0].id == id then
      assert FirstRecipeAt(rs, id, 0);
      Some(rs[0])
    else
      var r := FindRecipe(rs[1..], id);
      assert r.Some? ==> exists k :: FirstRecipeAt(rs[1..], id, k) && rs[1..][k] == r.value;
      assert r.Some? ==> exists k :: FirstRecipeAt(rs, id, k) && rs[k] == r.value by {
        if r.Some? {
          var k :| FirstRecipeAt(rs[1..], id, k) && rs[1..][k] == r.value;
          assert FirstRecipeAt(rs, id, k + 1);
        }
      }
      assert forall x :: x in rs <==> x == rs[0] || x in rs[1..];
      r
  }

  /** The favorite update of App.tsx:143-145: every recipe with the id gets the new flag. */
  function SetFavorite(rs: seq<Recipe>, id: string, status: bool): seq<Recipe> {
    seq(|rs|, i requires 0 <= i < |rs| => if rs[i].id == id then rs[i].(isFavorite := status) else rs[i])
  }

  /** Setting a favorite flag keeps every id where it was, so it keeps ids unique. */
  lemma SetFavoriteKeepsIds(rs: seq<Recipe>, id: string, status: bool)
    ensures |SetFavorite(rs, id, status)| == |rs|
    ensures forall i :: 0 <= i < |rs| ==> SetFavorite(rs, id, status)[i].id == rs[i].id
    ensures Ids(SetFavorite(rs, id, status)) == Ids(rs)
    ensures IdsUnique(rs) ==> IdsUnique(SetFavorite(rs, id, status))
  {
    var r := SetFavorite(rs, id, status);
    forall x | x in Ids(rs) ensures x in Ids(r) {
      var k :| 0 <= k < |rs| && rs[k].id == x;
      assert r[k] in r;
    }
  }

  /** Toggling a favorite twice restores the list when ids are unique. */
  lemma ToggleFavoriteTwice(rs: seq<Recipe>, id: string)
    requires IdsUnique(rs) && HasId(rs, id)
    ensures var b := FindRecipe(rs, id).value.isFavorite;
      SetFavorite(SetFavorite(rs, id, !b), id, b) == rs
  {
    var b := FindRecipe(rs, id).value.isFavorite;
    var k :| FirstRecipeAt(rs, id, k) && rs[k] == FindRecipe(rs, id).value;
    var twice := SetFavorite(SetFavorite(rs, id, !b), id, b);
    forall i | 0 <= i < |rs| ensures twice[i] == rs[i] {
      if rs[i].id == id {
        assert i == k;
      }
    }
  }

  /** The toggled recipe is found again with the new flag. */
  lemma FindAfterSetFavorite(rs: seq<Recipe>, id: string, status: bool)
    requires HasId(rs, id)
    ensures FindRecipe(SetFavorite(rs, id, status), id) == Some(FindRecipe(rs, id).value.(isFavorite := status))
  {
    var k := FirstRecipeIndex(rs, id);
    var r := SetFavorite(rs, id, status);
    assert FirstRecipeAt(r, id, k) by {
      assert forall j :: 0 <= j < |rs| ==> r[j].id == rs[j].id;
    }
    FindRecipeAt(r, id, k);
  }

  /** The index of the recipe `find` returns. */
  lemma FirstRecipeIndex(rs: seq<Recipe>, id: string) returns (k: nat)
    requires HasId(rs, id)
    ensures FirstRecipeAt(rs, id, k) && FindRecipe(rs, id) == Some(rs[k])
  {
    var f := FindRecipe(rs, id);
    k :| FirstRecipeAt(rs, id, k) && rs[k] == f.value;
  }

  /** `find` returns the recipe at the first index holding the id. */
  lemma FindRecipeAt(rs: seq<Recipe>, id: string, k: int)
    requires FirstRecipeAt(rs, id, k)
    ensures FindRecipe(rs, id) == Some(rs[k])
  {
    assert rs[k] in rs;
    var k' := FirstRecipeIndex(rs, id);
    assert k' == k;
  }

  function ItemIds(items: seq<ShoppingItem>): set<string> {
    set it | it in items :: it.id
  }

  predicate ItemIdsUnique(items: seq<ShoppingItem>) {
    forall i, j :: 0 <= i < j < |items| ==> items[i].id != items[j].id
  }

  /** `k` is the index of the first item with id `id`. */
  predicate FirstItemAt(items: seq<ShoppingItem>, id: string, k: int) {
    0 <= k < |items| && items[k].id == id && forall j :: 0 <= j < k ==> items[j].id != id
  }

  /** The item lookup of App.tsx:180: the first item with that id. */
  function FindItem(items: seq<ShoppingItem>, id: string): (r: Option<ShoppingItem>)
    ensures r.None? <==> id !in ItemIds(items)
    ensures r.Some? ==> exists k :: FirstItemAt(items, id, k) && items[k] == r.value
  {
    if items == [] then None
    else if items[0].id == id then
      assert FirstItemAt(items, id, 0);
      Some(items[0])
    else
      var r := FindItem(items[1..], id);
      assert r.Some? ==> exists k :: FirstItemAt(items[1..], id, k) && items[1..][k] == r.value;
      assert r.Some? ==> exists k :: FirstItemAt(items, id, k) && items[k] == r.value by {
        if r.Some? {
          var k :| FirstItemAt(items[1..], id, k) && items[1..][k] == r.value;
          assert FirstItemAt(items, id, k + 1);
        }
      }
      assert forall x :: x in items <==> x == items[0] || x in items[1..];
      r
  }

  /** The checked update of App.tsx:184-186: each item with the id flips its own flag. */
  function FlipChecked(items: seq<ShoppingItem>, id: string): seq<ShoppingItem> {
    seq(|items|, i requires 0 <= i < |items| => if items[i].id == id then items[i].(checked := !items[i].checked) else items[i])
  }

  /** Flipping is an involution, and a flip for an absent id changes nothing. */
  lemma FlipCheckedTwice(items: seq<ShoppingItem>, id: string)
    ensures FlipChecked(FlipChecked(items, id), id) == items
    ensures id !in ItemIds(items) ==> FlipChecked(items, id) == items
  {
    var once := FlipChecked(items, id);
    assert forall i :: 0 <= i < |items| ==> FlipChecked(once, id)[i] == items[i];
    if id !in ItemIds(items) {
      forall i | 0 <= i < |items| ensures once[i] == items[i] {
        assert items[i] in items;
      }
    }
  }

  /** The removal of App.tsx:196: keep the items whose id differs. */
  function RemoveItem(items: seq<ShoppingItem>, id: string): (r: seq<ShoppingItem>)
    ensures forall x :: x in r <==> x in items && x.id != id
    ensures |r| <= |items|
  {
    if items == [] then []
    else
      assert forall x :: x in items <==> x == items[0] || x in items[1..];
      (if items[0].id == id then [] else [items[0]]) + RemoveItem(items[1..], id)
  }

  /** Removal keeps relative order: it works piecewise over a concatenation. */
  lemma {:induction false} RemoveItemAppend(a: seq<ShoppingItem>, b: seq<ShoppingItem>, id: string)
    ensures RemoveItem(a + b, id) == RemoveItem(a, id) + RemoveItem(b, id)
  {
    if a == [] {
      assert a + b == b;
    } else {
      assert (a + b)[0] == a[0] && (a + b)[1..] == a[1..] + b;
      RemoveItemAppend(a[1..], b, id);
    }
  }

  /** Removing an absent id leaves the list as it was, and only then. */
  lemma {:induction false} RemoveItemAbsent(items: seq<ShoppingItem>, id: string)
    ensures id !in ItemIds(items) <==> RemoveItem(items, id) == items
  {
    if id !in ItemIds(items) && items != [] {
      assert items[0] in items;
      assert ItemIds(items[1..]) <= ItemIds(items) by {
        assert forall x :: x in items[1..] ==> x in items;
      }
      RemoveItemAbsent(items[1..], id);
      assert items == [items[0]] + items[1..];
    }
  }

  /** Removing twice is removing once. */
  lemma RemoveItemTwice(items: seq<ShoppingItem>, id: string)
    ensures RemoveItem(RemoveItem(items, id), id) == RemoveItem(items, id)
  {
    RemoveItemAbsent(RemoveItem(items, id), id);
  }

  /** Removing an item that was just appended with a fresh id undoes the append. */
  lemma RemoveUndoesAppend(items: seq<ShoppingItem>, it: ShoppingItem)
    requires it.id !in ItemIds(items)
    ensures RemoveItem(items + [it], it.id) == items
  {
    RemoveItemAppend(items, [it], it.id);
    RemoveItemAbsent(items, it.id);
  }

  /** The new items of App.tsx:159-164: one per ingredient, carrying its name and quantity, a
      generated id (supplied here in ingredient order), unchecked, tagged with the recipe's name. */
  function NewItems(recipe: Recipe, ids: seq<string>): seq<ShoppingItem>
    requires |ids| == |recipe.ingredients|
  {
    seq(|ids|, i requires 0 <= i < |ids| =>
      ShoppingItem(ids[i], recipe.ingredients[i].name, recipe.ingredients[i].quantity, false, Some(recipe.name)))
  }

  /** The ingredient part of a shopping item (what `...ing` copied in). */
  function AsIngredients(items: seq<ShoppingItem>): seq<Ingredient> {
    seq(|items|, i requires 0 <= i < |items| => Ingredient(items[i].name, items[i].quantity))
  }

  /** New items round-trip to the recipe's ingredients and to the ids they were given, and
      all start unchecked and tagged with the recipe's name. */
  lemma NewItemsFacts(recipe: Recipe, ids: seq<string>)
    requires |ids| == |recipe.ingredients|
    ensures AsIngredients(NewItems(recipe, ids)) == recipe.ingredients
    ensures forall i :: 0 <= i < |ids| ==> NewItems(recipe, ids)[i].id == ids[i]
    ensures forall it :: it in NewItems(recipe, ids) ==> !it.checked && it.recipeName == Some(recipe.name)
  {
  }

  /** Fresh, pairwise distinct ids keep shopping ids unique across an add. */
  lemma AddKeepsItemIdsUnique(items: seq<ShoppingItem>, recipe: Recipe, ids: seq<string>)
    requires |ids| == |recipe.ingredients|
    requires ItemIdsUnique(items)
    requires forall i, j :: 0 <= i < j < |ids| ==> ids[i] != ids[j]
    requires forall i :: 0 <= i < |ids| ==> ids[i] !in ItemIds(items)
    ensures ItemIdsUnique(items + NewItems(recipe, ids))
  {
    var n := NewItems(recipe, ids);
    var all := items + n;
    forall i, j | 0 <= i < j < |all| ensures all[i].id != all[j].id {
      if i < |items| && j >= |items| {
        assert items[i] in items;
        assert all[j].id == ids[j - |items|];
      }
    }
  }
}

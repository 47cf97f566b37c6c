/** Client code that drives the controller through whole sessions and checks, from the
    handlers' contracts alone, what the user and the remote store see. */
module Scenarios {
  import opened Types
  import opened Constants
  import opened CatalogMerge
  import opened ListUpdates
  import opened AppState

  /** A guest adds a three-ingredient recipe: three unchecked rows, nothing sent to the store. */
  method GuestAddsRecipe(recipe: Recipe, ids: seq<string>)
    requires |recipe.ingredients| == 3 && |ids| == 3
  {
    var app := new App();
    app.SetSession(Some(Session(Some(AuthUser(Some("u1"), Some(GuestEmail))))));
    app.LoadUserData(Threw, Threw, Threw);
    app.HandleAddToShoppingList(recipe, ids);
    assert |app.shoppingList| == 3;
    assert forall it :: it in app.shoppingList ==> !it.checked;
    assert app.remoteLog == [];
  }

  /** The session "continue as guest" installs carries the guest address and no user id. The
      load effect never runs for it, so loading leaves every field as it was; the handlers
      still update local state and issue no remote call. */
  method ContinueAsGuest(recipe: Recipe, ids: seq<string>)
    requires |ids| == |recipe.ingredients|
  {
    var app := new App();
    app.SetSession(Some(Session(Some(AuthUser(None, Some(GuestEmail))))));
    app.LoadUserData(Fetched(None), Fetched([]), Fetched([]));
    assert app.recipes == MockRecipes && app.shoppingList == [] && !app.dataLoaded;
    assert app.user == InitialUser && app.remoteLog == [];
    app.HandleToggleFavorite("2");
    app.HandleAddToShoppingList(recipe, ids);
    app.HandleClearShoppingList(true);
    app.HandleUpdateProfile(InitialUser.(name := "Asha"));
    assert app.shoppingList == [] && app.user.name == "Asha";
    assert app.remoteLog == [];
  }

  /** A signed-in user with no stored favorites toggles recipe "1": the local flag turns true at
      once and one addFavorite is issued after the three loads; no later outcome of that call
      can reset the flag. */
  method SignedInToggles()
  {
    var app := SignedInWithoutFavorites();
    assert HasId(app.recipes, "1") by {
      assert app.recipes[0] in app.recipes;
    }
    var before := app.recipes;
    FindRecipeAt(before, "1", 0);
    app.HandleToggleFavorite("1");
    assert app.recipes[0].isFavorite;
    assert app.remoteLog == [GetProfile("u1"), GetSavedRecipes("u1"), GetShoppingList("u1"), AddFavorite("u1", before[0])];
  }

  /** Logging out restores the catalog as shipped, in which recipe "1" is a favorite again,
      although the signed-in user had not saved it. */
  method LogoutRestoresShippedFlags()
  {
    var app := SignedInWithoutFavorites();
    app.HandleLogout();
    assert app.recipes[0].isFavorite && app.shoppingList == [];
  }

  /** A fresh app after "u1" signs in with no stored profile, favorites or list. */
  method SignedInWithoutFavorites() returns (app: App)
    ensures fresh(app) && app.Valid() && app.session == Some(Session(Some(AuthUser(Some("u1"), Some("cook@example.org")))))
    ensures !IsGuest(app.session)
    ensures app.recipes == Merge(MockRecipes, []) && app.recipes[0].id == "1" && !app.recipes[0].isFavorite
    ensures app.remoteLog == [GetProfile("u1"), GetSavedRecipes("u1"), GetShoppingList("u1")]
  {
    app := new App();
    app.SetSession(Some(Session(Some(AuthUser(Some("u1"), Some("cook@example.org"))))));
    assert "cook@example.org" != GuestEmail by {
      assert "cook@example.org"[0] != GuestEmail[0];
    }
    GuestSessions(Some("u1"), Some("cook@example.org"));
    app.LoadUserData(Fetched(None), Fetched([]), Fetched([]));
    MergeCatalogPart(MockRecipes, []);
  }
}

/** The state controller of App.tsx: the session, the working recipe set, the shopping list,
    the profile and the active view, with the handlers that update them optimistically.
    Every handler first rewrites the local state; only for a non-guest session does it then
    issue its remote calls, one after another. The calls are recorded, in issue order, in the
    ghost `remoteLog`; their outcome is never read back, which is the no-rollback policy. */
module AppState {
  import opened Types
  import opened Constants
  import opened CatalogMerge
  import opened ListUpdates

  /** The reserved address of the shared guest account. */
  const GuestEmail: string := "guest@nutriveda.app"

  /** App.tsx:44: a session is a guest one when it has no (non-empty) user id or carries the
      guest address. */
  predicate IsGuest(s: Option<Session>) {
    !Truthy(UserId(s)) || UserEmail(s) == Some(GuestEmail)
  }

  /** The user id the handlers pass to the store: present exactly when `!isGuest && userId`. */
  function RemoteUser(s: Option<Session>): (u: Option<string>)
    ensures u.Some? <==> !IsGuest(s)
    ensures u.Some? ==> UserId(s) == u && u.value != ""
  {
    if IsGuest(s) then None else UserId(s)
  }

  /** The calls a handler issues: `op` for the session's user, or nothing for a guest. */
  function Calls(s: Option<Session>, ops: string -> seq<RemoteOp>): (r: seq<RemoteOp>)
    ensures IsGuest(s) ==> r == []
  {
    match RemoteUser(s)
    case None => []
    case Some(uid) => ops(uid)
  }

  /** One `addShoppingItem` per item, in list order. */
  function AddItemOps(uid: string, items: seq<ShoppingItem>): (ops: seq<RemoteOp>)
    ensures |ops| == |items|
  {
    seq(|items|, i requires 0 <= i < |items| => AddShoppingItem(uid, items[i]))
  }

  /** The profile spread of App.tsx:80: every column the stored profile has replaces the current value. */
  function ApplyProfile(prev: UserPreferences, p: ProfilePatch): UserPreferences {
    UserPreferences(
      if p.name.Some? then p.name.value else prev.name,
      if p.allergies.Some? then p.allergies.value else prev.allergies,
      if p.dietaryPreference.Some? then p.dietaryPreference.value else prev.dietaryPreference,
      if p.deficiencies.Some? then p.deficiencies.value else prev.deficiencies)
  }

  /** A complete stored profile replaces the current one; an empty one keeps it. */
  lemma ApplyProfileCases(prev: UserPreferences, p: ProfilePatch)
    ensures p.name.Some? && p.allergies.Some? && p.dietaryPreference.Some? && p.deficiencies.Some? ==>
      ApplyProfile(prev, p) ==
        UserPreferences(p.name.value, p.allergies.value, p.dietaryPreference.value, p.deficiencies.value)
    ensures p == ProfilePatch(None, None, None, None) ==> ApplyProfile(prev, p) == prev
  {
  }

  /** The guest address makes a session a guest one whatever its user id, and a session with a
      non-empty id and any other address is an authenticated one. */
  lemma GuestSessions(id: Option<string>, email: Option<string>)
    ensures email == Some(GuestEmail) ==> IsGuest(Some(Session(Some(AuthUser(id, email)))))
    ensures Truthy(id) && email != Some(GuestEmail) ==> !IsGuest(Some(Session(Some(AuthUser(id, email)))))
    ensures IsGuest(None) && IsGuest(Some(Session(None)))
  {
  }

  /** A merged working set has unique ids, since the catalog's ids are distinct. */
  lemma LoadedRecipesUnique(saved: seq<Recipe>)
    ensures IdsUnique(Merge(MockRecipes, saved))
  {
    MockRecipesIdsUnique();
    MergeIdsUnique(MockRecipes, saved);
  }

  class App {
    var session: Option<Session>
    var activeView: ViewState
    var recipes: seq<Recipe>
    var shoppingList: seq<ShoppingItem>
    var selectedRecipe: Option<Recipe>
    var user: UserPreferences
    var dataLoaded: bool
    /** The remote calls issued so far, in issue order. */
    ghost var remoteLog: seq<RemoteOp>

    /** The working set never holds two recipes with the same id. */
    ghost predicate Valid()
      reads this
    {
      IdsUnique(recipes)
    }

    /** The initial state of the `useState` hooks. */
    constructor ()
      ensures Valid()
      ensures session == None && activeView == Recommend
      ensures recipes == MockRecipes && shoppingList == [] && selectedRecipe == None
      ensures user == InitialUser && !dataLoaded && remoteLog == []
    {
      session := None;
      activeView := Recommend;
      recipes := MockRecipes;
      shoppingList := [];
      selectedRecipe := None;
      user := InitialUser;
      dataLoaded := false;
      remoteLog := [];
      MockRecipesIdsUnique();
    }

    /** `setSession` from the identity provider (initial session or a change event). */
    method SetSession(s: Option<Session>)
      modifies this`session
      ensures session == s
    {
      session := s;
    }

    /** The data-loading effect. It runs loadUserData only when there is a user id; a guest
        session then resets recipes and shopping list. Otherwise profile, saved recipes and
        shopping list are fetched in turn (see LoadSignedIn). */
    method LoadUserData(
      profile: Fetch<Option<ProfilePatch>>, saved: Fetch<seq<Recipe>>, list: Fetch<seq<ShoppingItem>>)
      requires Valid()
      modifies this`user, this`recipes, this`shoppingList, this`dataLoaded, this`remoteLog
      ensures Valid()
      ensures !Truthy(UserId(session)) ==>
        user == old(user) && recipes == old(recipes) && shoppingList == old(shoppingList) &&
        dataLoaded == old(dataLoaded) && remoteLog == old(remoteLog)
      ensures Truthy(UserId(session)) && IsGuest(session) ==>
        recipes == MockRecipes && shoppingList == [] &&
        user == old(user) && dataLoaded == old(dataLoaded) && remoteLog == old(remoteLog)
      ensures !IsGuest(session) ==> Loaded(old(user), old(recipes), old(shoppingList), old(remoteLog), profile, saved, list)
    {
      if !Truthy(UserId(session)) {
        return;
      }
      if IsGuest(session) {
        MockRecipesIdsUnique();
        recipes := MockRecipes;
        shoppingList := [];
        return;
      }
      LoadSignedIn(profile, saved, list);
    }

    /** The state after the load sequence for a signed-in user: each fetch that returned is
        applied (the profile over the current one, the saved recipes merged into the catalog,
        the shopping list wholesale); the first fetch that throws ends the sequence with the
        state assembled so far kept in place; the readiness flag is set either way. */
    ghost predicate Loaded(
      user0: UserPreferences, recipes0: seq<Recipe>, list0: seq<ShoppingItem>, log0: seq<RemoteOp>,
      profile: Fetch<Option<ProfilePatch>>, saved: Fetch<seq<Recipe>>, list: Fetch<seq<ShoppingItem>>)
      requires !IsGuest(session)
      reads this
    {
      var uid := UserId(session).value;
      && dataLoaded
      && user == (if profile.Fetched? && profile.value.Some? then ApplyProfile(user0, profile.value.value) else user0)
      && recipes == (if profile.Fetched? && saved.Fetched? then Merge(MockRecipes, saved.value) else recipes0)
      && shoppingList == (if profile.Fetched? && saved.Fetched? && list.Fetched? then list.value else list0)
      && remoteLog == log0 + [GetProfile(uid)] +
           (if profile.Fetched? then [GetSavedRecipes(uid)] + (if saved.Fetched? then [GetShoppingList(uid)] else []) else [])
    }

    /** The `try` block of loadUserData for a signed-in, non-guest user. */
    method LoadSignedIn(
      profile: Fetch<Option<ProfilePatch>>, saved: Fetch<seq<Recipe>>, list: Fetch<seq<ShoppingItem>>)
      requires Valid() && !IsGuest(session)
      modifies this`user, this`recipes, this`shoppingList, this`dataLoaded, this`remoteLog
      ensures Valid()
      ensures Loaded(old(user), old(recipes), old(shoppingList), old(remoteLog), profile, saved, list)
    {
      var uid := UserId(session).value;
      remoteLog := remoteLog + [GetProfile(uid)];
      if profile.Threw? {
        dataLoaded := true;
        return;
      }
      if profile.value.Some? {
        user := ApplyProfile(user, profile.value.value);
      }
      remoteLog := remoteLog + [GetSavedRecipes(uid)];
      if saved.Threw? {
        dataLoaded := true;
        return;
      }
      var merged := MergeSavedRecipes(MockRecipes, saved.value);
      LoadedRecipesUnique(saved.value);
      recipes := merged;
      remoteLog := remoteLog + [GetShoppingList(uid)];
      if list.Fetched? {
        shoppingList := list.value;
      }
      dataLoaded := true;
    }

    /** handleLogout: drop the session and reset recipes, shopping list and view. The profile
        is left as it was. */
    method HandleLogout()
      modifies this`session, this`recipes, this`shoppingList, this`activeView
      ensures Valid()
      ensures session == None && IsGuest(session)
      ensures recipes == MockRecipes && shoppingList == [] && activeView == Recommend
      ensures user == old(user) && remoteLog == old(remoteLog)
    {
      session := None;
      MockRecipesIdsUnique();
      recipes := MockRecipes;
      shoppingList := [];
      activeView := Recommend;
    }

    /** handleUpdateProfile: replace the profile, then store it. */
    method HandleUpdateProfile(updated: UserPreferences)
      modifies this`user, this`remoteLog
      ensures user == updated
      ensures remoteLog == old(remoteLog) + Calls(session, uid => [UpdateProfile(uid, updated)])
    {
      user := updated;
      var u := RemoteUser(session);
      if u.Some? {
        remoteLog := remoteLog + [UpdateProfile(u.value, updated)];
      }
    }

    /** handleToggleFavorite: an unknown id changes nothing; otherwise every recipe with the
        id gets the negation of the first match's flag, then the favorite is added or removed. */
    method HandleToggleFavorite(id: string)
      requires Valid()
      modifies this`recipes, this`remoteLog
      ensures Valid()
      ensures !HasId(old(recipes), id) ==> recipes == old(recipes) && remoteLog == old(remoteLog)
      ensures HasId(old(recipes), id) ==>
        var r := FindRecipe(old(recipes), id).value;
        && recipes == SetFavorite(old(recipes), id, !r.isFavorite)
        && remoteLog == old(remoteLog) +
             Calls(session, uid => if !r.isFavorite then [AddFavorite(uid, r)] else [RemoveFavorite(uid, id)])
    {
      var found := FindRecipe(recipes, id);
      if found.None? {
        return;
      }
      var recipe := found.value;
      var newStatus := !recipe.isFavorite;
      SetFavoriteKeepsIds(recipes, id, newStatus);
      recipes := SetFavorite(recipes, id, newStatus);
      var u := RemoteUser(session);
      if u.Some? {
        if newStatus {
          remoteLog := remoteLog + [AddFavorite(u.value, recipe)];
        } else {
          remoteLog := remoteLog + [RemoveFavorite(u.value, id)];
        }
      }
    }

    /** handleAddToShoppingList: append one new unchecked item per ingredient, tagged with the
        recipe's name, then store the new items one at a time in ingredient order. The generated
        ids are a parameter, one per ingredient. */
    method HandleAddToShoppingList(recipe: Recipe, ids: seq<string>)
      requires |ids| == |recipe.ingredients|
      modifies this`shoppingList, this`remoteLog
      ensures shoppingList == old(shoppingList) + NewItems(recipe, ids)
      ensures remoteLog == old(remoteLog) + Calls(session, uid => AddItemOps(uid, NewItems(recipe, ids)))
    {
      var newItems := NewItems(recipe, ids);
      shoppingList := shoppingList + newItems;
      var u := RemoteUser(session);
      if u.Some? {
        var i := 0;
        while i < |newItems|
          invariant 0 <= i <= |newItems|
          invariant shoppingList == old(shoppingList) + newItems
          invariant remoteLog == old(remoteLog) + AddItemOps(u.value, newItems[..i])
        {
          assert AddItemOps(u.value, newItems[..i + 1]) == AddItemOps(u.value, newItems[..i]) + [AddShoppingItem(u.value, newItems[i])];
          remoteLog := remoteLog + [AddShoppingItem(u.value, newItems[i])];
          i := i + 1;
        }
        assert newItems[..|newItems|] == newItems;
      }
    }

    /** handleToggleShoppingItem: an unknown id changes nothing; otherwise every item with the
        id flips its own flag, and the store gets the first match's new value. */
    method HandleToggleShoppingItem(id: string)
      modifies this`shoppingList, this`remoteLog
      ensures FindItem(old(shoppingList), id).None? ==>
        shoppingList == old(shoppingList) && remoteLog == old(remoteLog)
      ensures FindItem(old(shoppingList), id).Some? ==>
        var item := FindItem(old(shoppingList), id).value;
        && shoppingList == FlipChecked(old(shoppingList), id)
        && remoteLog == old(remoteLog) + Calls(session, uid => [UpdateShoppingItem(uid, id, !item.checked)])
    {
      var found := FindItem(shoppingList, id);
      if found.None? {
        return;
      }
      var item := found.value;
      shoppingList := FlipChecked(shoppingList, id);
      var u := RemoteUser(session);
      if u.Some? {
        remoteLog := remoteLog + [UpdateShoppingItem(u.value, id, !item.checked)];
      }
    }

    /** handleRemoveShoppingItem: drop every item with the id; the delete is sent even when no
        item had it. */
    method HandleRemoveShoppingItem(id: string)
      modifies this`shoppingList, this`remoteLog
      ensures shoppingList == RemoveItem(old(shoppingList), id)
      ensures remoteLog == old(remoteLog) + Calls(session, uid => [DeleteShoppingItem(uid, id)])
    {
      shoppingList := RemoveItem(shoppingList, id);
      var u := RemoteUser(session);
      if u.Some? {
        remoteLog := remoteLog + [DeleteShoppingItem(u.value, id)];
      }
    }

    /** handleClearShoppingList: only a confirmed clear empties the list and is stored. */
    method HandleClearShoppingList(confirmed: bool)
      modifies this`shoppingList, this`remoteLog
      ensures !confirmed ==> shoppingList == old(shoppingList) && remoteLog == old(remoteLog)
      ensures confirmed ==>
        shoppingList == [] && remoteLog == old(remoteLog) + Calls(session, uid => [ClearShoppingList(uid)])
    {
      if confirmed {
        shoppingList := [];
        var u := RemoteUser(session);
        if u.Some? {
          remoteLog := remoteLog + [ClearShoppingList(u.value)];
        }
      }
    }

    /** onViewRecipe from the recommendation view: append the recipe only if its id is new,
        then select it. Nothing is stored remotely. */
    method OnViewRecipe(r: Recipe)
      requires Valid()
      modifies this`recipes, this`selectedRecipe
      ensures Valid()
      ensures recipes == if HasId(old(recipes), r.id) then old(recipes) else old(recipes) + [r]
      ensures selectedRecipe == Some(r)
    {
      if !HasId(recipes, r.id) {
        assert forall i :: 0 <= i < |recipes| ==> recipes[i] in recipes;
        recipes := recipes + [r];
      }
      selectedRecipe := Some(r);
    }
  }
}

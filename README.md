# NutriVeda state controller in Dafny

NutriVeda is a recipe and nutrition web app. Its root component `App.tsx` holds all of the
client state:

- the authentication session;
- the working recipe set (the shipped catalog plus saved and AI-generated recipes);
- the shopping list;
- the user's dietary profile;
- the active view.

Its handlers change that state optimistically. Each one first rewrites local state. Then,
only for a signed-in non-guest user, it issues calls to the remote store one after another.
It never rolls back on failure.

This project models that controller and proves properties of it:

- **`Types`**: the app's records: recipe, ingredient, shopping item, profile, view, session. It also holds `Fetch` (a call that returns or throws) and `RemoteOp`, one constructor per store call.
- **`Constants`**: the shipped catalog of four recipes and the default profile.
- **`Uuid`**: the fallback UUID generator. It fills the version-4 template from a supplied sequence of random nibbles. The result is proved to be a well-formed version-4 UUID.
- **`CatalogMerge`**: the merge, run on login, of saved recipes into the catalog. It is a loop method proved against a specification function. That function is tied to an independent front-recursive definition. Lemmas cover ids, uniqueness, and the merge's failure to be idempotent.
- **`ListUpdates`**: the per-element updates the handlers apply: find, favorite toggle, checked flip, removal, and new items made from ingredients. Each comes with its inverse or invariant.
- **`ShoppingText`**: the clipboard text of the shopping list. Splitting it at newlines gives back the header and one line per item.
- **`RecipeFilter`**: the search, cuisine and view filter behind the dashboard and kitchen views.
- **`AppState`**: the guest test and the `App` class, whose fields are the component's state. The remote store is not modelled. Instead, the class keeps a ghost log, `remoteLog`, of the calls each handler issues, in issue order. Every handler's contract gives the new local state and the exact calls appended to the log. A guest session appends none.
- **`Scenarios`**: client methods. They drive whole sessions through the handlers' contracts: a guest adding a recipe, the "continue as guest" session, a signed-in user toggling a favorite, and a signed-in user logging out.

## Model

| member | source | states |
|---|---|---|
| Uuid.Fill | App.tsx:18-21 | Filling a template keeps its length and every literal character. Each `x` becomes a lower-case hex digit. Each `y` becomes one of `8 9 a b`. |
| Uuid.FillAt | App.tsx:18-21 | The i-th placeholder takes the nibble whose index is the number of placeholders before it, so nibbles are used left to right, one per placeholder. |
| Uuid.FallbackUuid | App.tsx:14-22 | From the 31 nibbles the template asks for, the fallback always yields a version-4 UUID. It has 36 characters, hyphens at 8, 13, 18 and 23, `4` at 14, a variant digit in `8 9 a b` at 19, and lower-case hex everywhere else. |
| Uuid.TemplateLiteral | App.tsx:18 | The template built from runs of `x` is the literal `xxxxxxxx-xxxx-4xxx-yxxx-xxxxxxxxxxxx`. |
| Uuid.TemplatePlaceholders | App.tsx:18 | The template has exactly 31 placeholders, so one random draw per placeholder needs 31 draws. |
| Uuid.VariantNibble | App.tsx:19 | `r & 0x3 \| 0x8` lies in 8..11 and keeps the two low bits of r. |
| Uuid.HexDigit | App.tsx:20 | `v.toString(16)` of a value below 16 is one lower-case hex digit. |
| CatalogMerge.MergeSavedRecipes | App.tsx:89-101 | The loop that pushes each saved recipe whose id is not yet present produces the merge: catalog re-flagged, then the appended saved recipes. |
| CatalogMerge.AppendUnseenClosed | App.tsx:95-99 | Appending unseen saved recipes one by one equals the accumulator followed by the independent front-to-back definition. That definition keeps the first recipe of each id not already present. |
| CatalogMerge.MergeCatalogPart | App.tsx:89-92 | The merge starts with the catalog in order. Each catalog entry is unchanged except its favorite flag, which is true exactly when a saved recipe has its id. |
| CatalogMerge.MergeAppendedPart | App.tsx:94-99 | After the catalog, the merge holds exactly the saved recipes, in store order and as stored, whose id neither the catalog nor an earlier saved recipe has. |
| CatalogMerge.MergeIds | App.tsx:89-99 | The merged id set is the union of the catalog ids and the saved ids. |
| CatalogMerge.MergeIdsUnique | App.tsx:89-99 | With a catalog whose ids are distinct, the merged set has distinct ids, even if the saved list repeats an id. |
| CatalogMerge.RemergeKeepsIds | App.tsx:89-99 | Merging the merged set again with the same saved list yields the same id set. |
| CatalogMerge.RemergeNotIdempotent | App.tsx:89-99 | If any catalog recipe is not saved, re-merging the merged set differs from it. Every catalog entry comes back flagged as a favorite, because the lookup compares ids only and the merged set holds every catalog id. |
| CatalogMerge.MockRecipesIdsUnique | constants.ts:3-98 | The shipped catalog has the four distinct ids "1" to "4". |
| ListUpdates.FindRecipe | App.tsx:137 | `find` returns nothing exactly when no recipe has the id. Otherwise it returns the recipe at the first index with that id. |
| ListUpdates.FindRecipeAt | App.tsx:137 | If index k is the first to hold the id, `find` returns the recipe at k. |
| ListUpdates.SetFavoriteKeepsIds | App.tsx:143-145 | The favorite map keeps length, every position's id and the id set, so it keeps ids unique. |
| ListUpdates.ToggleFavoriteTwice | App.tsx:140-145 | With unique ids, toggling a present recipe twice restores the list. |
| ListUpdates.FindAfterSetFavorite | App.tsx:137-145 | After the map, `find` returns the same recipe with the new flag. |
| ListUpdates.FindItem | App.tsx:180 | `find` on the shopping list returns nothing exactly when the id is absent. Otherwise it returns the first item with the id. |
| ListUpdates.FlipCheckedTwice | App.tsx:184-186 | Flipping checked flags is an involution, and a flip for an absent id leaves the list unchanged. |
| ListUpdates.RemoveItem | App.tsx:196 | The filter keeps exactly the items whose id differs and never lengthens the list. |
| ListUpdates.RemoveItemAppend | App.tsx:196 | Removal distributes over concatenation, so relative order is kept. |
| ListUpdates.RemoveItemAbsent | App.tsx:196 | Removal leaves the list unchanged if and only if the id is absent. |
| ListUpdates.RemoveItemTwice | App.tsx:196 | Removing twice equals removing once. |
| ListUpdates.RemoveUndoesAppend | App.tsx:196 | Removing an appended item whose id was fresh restores the list before the append. |
| ListUpdates.NewItemsFacts | App.tsx:159-164 | The new items give back the recipe's ingredients in order and carry the supplied ids. All of them start unchecked and tagged with the recipe's name. |
| ListUpdates.AddKeepsItemIdsUnique | App.tsx:159-167 | Distinct ids that are fresh with respect to the list keep shopping-item ids unique across an add. |
| ShoppingText.SplitJoin | App.tsx:216 | Splitting at newlines undoes `join('\n')` for newline-free lines. |
| ShoppingText.CopyTextLines | App.tsx:213-216 | Reading the copied text back line by line gives "My Shopping List:", an empty line, and then each item's line in list order. |
| ShoppingText.CopyTextEmpty | App.tsx:214-216 | An empty list copies as the header alone. |
| ShoppingText.CopyTextAppend | App.tsx:214-216 | Appending an item to a non-empty list appends a newline and that item's line. |
| ShoppingText.LineCheckBox | App.tsx:215 | A line starts with `- [x] ` exactly when the item is checked, and with `- [ ] ` exactly when it is not. |
| ShoppingText.CopyTextExample | App.tsx:214-216 | An unchecked untagged "Rice" and a checked "Dal" tagged "Dal Tadka" read back as the title, an empty line, `- [ ] Rice (2 cups) ` with its trailing space, and `- [x] Dal (1 cup) [Dal Tadka]`. |
| RecipeFilter.Filter | App.tsx:223-231 | A recipe is shown exactly when it matches the search in name, a tag or cuisine name, and the cuisine choice, and is a favorite in the kitchen view. |
| RecipeFilter.FilterIsSubsequence | App.tsx:223 | The shown recipes keep their relative order. |
| RecipeFilter.KitchenShowsFavorites | App.tsx:228 | The kitchen view shows only favorites. |
| RecipeFilter.DefaultFilterShowsAll | App.tsx:224-228 | With an empty search and cuisine "All", every view except the kitchen shows the whole list. |
| RecipeFilter.ToLowerIdempotent | App.tsx:224 | Lower-casing twice equals lower-casing once. |
| RecipeFilter.FilterCaseInsensitive | App.tsx:224-226 | Lower-casing the query does not change the result. |
| RecipeFilter.FilterIdempotent | App.tsx:223-231 | Filtering the filtered list again changes nothing. |
| AppState.RemoteUser | App.tsx:44 | A user id is passed to the store exactly when the session is not a guest one, and it is then the session's non-empty id. |
| AppState.Calls | App.tsx:148 | A guest session issues no remote call. |
| AppState.ApplyProfileCases | App.tsx:79-81 | A stored profile with every column replaces the current one. One with no columns keeps it. |
| AppState.GuestSessions | App.tsx:42-44 | The guest address makes any session a guest one. A non-empty id with another address is a signed-in user. No session, or no user, is a guest. |
| AppState.LoadedRecipesUnique | App.tsx:89-101 | Every merged working set has distinct ids. |
| AppState.App.constructor | App.tsx:26-39 | Initial state: no session, the recommendation view, the catalog, an empty list, no selection, the default profile, not loaded, nothing issued. |
| AppState.App.SetSession | App.tsx:56-58 | A session from the identity provider replaces the current one. |
| AppState.App.LoadUserData | App.tsx:67-117 | With no user id nothing changes. A guest session resets recipes to the catalog and empties the list, with no call. A signed-in user goes through LoadSignedIn. Ids stay unique. |
| AppState.App.LoadSignedIn | App.tsx:75-111 | Profile, saved recipes and list are fetched in turn and each result is applied. The first fetch that throws ends the sequence, keeping what was applied so far. The data-loaded flag is set either way. |
| AppState.App.HandleLogout | App.tsx:121-127 | The session is dropped, so the state is guest. Recipes become the catalog, the list is emptied and the view is set to recommend. The profile is kept and no call is issued. |
| AppState.App.HandleUpdateProfile | App.tsx:129-134 | The profile is replaced, then stored for a signed-in user. |
| AppState.App.HandleToggleFavorite | App.tsx:136-155 | An unknown id changes nothing. Otherwise the recipe's favorite flag is negated, then addFavorite with the recipe or removeFavorite with the id is issued. Ids stay unique. |
| AppState.App.HandleAddToShoppingList | App.tsx:157-177 | The new items are appended, then one addShoppingItem is issued per item, in ingredient order. |
| AppState.App.HandleToggleShoppingItem | App.tsx:179-192 | An unknown id changes nothing. Otherwise the matching item flips its flag, then the store is sent that item's new value. |
| AppState.App.HandleRemoveShoppingItem | App.tsx:194-202 | Items with the id are dropped. The delete is issued even when no item had the id. |
| AppState.App.HandleClearShoppingList | App.tsx:204-211 | Only a confirmed clear empties the list and is stored. A declined one changes nothing. |
| AppState.App.OnViewRecipe | App.tsx:415-420 | A recipe viewed from the recommendation view is appended only if its id is new. It is then selected, and ids stay unique. |

### Behaviour worth knowing

These follow the code as written:

- **Re-merging is not idempotent.** The merge is not a fixed point. `RemergeNotIdempotent` shows that re-running it on its own output with the same saved list changes the catalog's favorite flags. Only the id set is stable (`RemergeKeepsIds`).
- **Guest load and logout keep the shipped flags.** They reinstall the shipped catalog verbatim, so recipe "1", shipped with `isFavorite: true`, shows as a favorite for a guest (`Scenarios.LogoutRestoresShippedFlags`). They do not clear all flags.
- **Logout keeps the profile.** It resets the recipes, the list and the view, but not the profile.
- **Signing out through an auth event resets nothing.** The load effect runs only when the session has a user id (App.tsx:114-116), so a session that turns into "no user" through an auth event leaves the previous user's recipes and list in place. Only `HandleLogout` resets them.
- **The "continue as guest" session never loads.** The session it installs (App.tsx:264) has the guest address and no user id, so the load effect never runs and the guest reset at App.tsx:69-72 is reached only by a guest session that has an id (`Scenarios.ContinueAsGuest`).
- **The guest path does not set the loaded flag.** The guest path of the load effect leaves the data-loaded flag untouched.
- **Unknown ids are handled unevenly.** Toggles with an unknown id return before any call. Remove still issues the delete.
- **A missing quantity is printed as the word `undefined`** in the copied text.

## Left out

- Rendering: the JSX views, the navigation helper, modals, the mobile menu, `loadingSession` and the recipe detail overlay (App.tsx:233-536). They are presentation.
- The identity provider's bootstrap, subscription and `signOut` (App.tsx:47-64, 122). They are foreign calls. The session they deliver is an input of `SetSession`, and `HandleLogout` drops it.
- AppState.App.HandleLogout: assumes the awaited sign-out succeeds. A rejected `signOut` (App.tsx:122) would skip the whole reset, leaving session, recipes, list and view as they were; the model does not capture that path.
- The remote store: the `db` services are not part of this model. Their calls are recorded in the ghost `remoteLog` and their results are inputs of `LoadUserData`.
- Failing writes inside the handlers are not modelled. Every write is taken to return. A rejected `addShoppingItem` would end the loop in `HandleAddToShoppingList` early, which the model does not capture.
- The `crypto.randomUUID` branch of the UUID generator (App.tsx:15-16) is a platform call. `Math.random` is floating point: the fallback takes its 31 nibbles as a parameter.
- AppState.App.HandleAddToShoppingList: the generated ids are a parameter and are not required to be UUID-shaped or distinct. `Uuid.FallbackUuid` gives their shape, and `ListUpdates.AddKeepsItemIdsUnique` states what distinct fresh ids preserve.
- The clipboard write, the "copied" flag and its 2-second timer (App.tsx:217-219) are I/O and time. Only the copied text is modelled.
- The `confirm` dialog (App.tsx:205) is I/O. Its answer is the boolean parameter of `HandleClearShoppingList`.
- React scheduling is not modelled: asynchronous interleaving of handlers, stale closures over `recipes` and `shoppingList`, and the effect's dependency list deciding when loading runs. Each handler is one atomic step, and its caller decides when `LoadUserData` runs.
- `searchQuery`, `selectedCuisine` and the active view as filter inputs are parameters of `RecipeFilter.Filter`, not stored state.
- RecipeFilter.ToLower: maps only ASCII `A`-`Z`, not the full Unicode case mapping of `toLowerCase`.
- Calories are unbounded integers, not JavaScript floating-point numbers.
- The error log line in the load effect's `catch` (App.tsx:108) is I/O.

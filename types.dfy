/** The entities of the recipe assistant's client state, as declared in types.ts,
    plus the session and fetch-outcome values the controller consumes. */
module Types {

  datatype Option<+T> = None | Some(value: T)

  /** JavaScript truthiness of an optional string: absent and "" are falsy. */
  predicate Truthy(o: Option<string>) {
    o.Some? && o.value != ""
  }

  datatype Cuisine = North | South | East | West | Fusion

  /** The string value of each CuisineType member. */
  function CuisineName(c: Cuisine): string {
    match c
    case North => "North Indian"
    case South => "South Indian"
    case East => "East Indian"
    case West => "West Indian"
    case Fusion => "Fusion"
  }

  datatype Diet = Veg | NonVeg | Vegan | Jain

  datatype Ingredient = Ingredient(name: string, quantity: Option<string>)

  datatype Recipe = Recipe(
    id: string,
    name: string,
    image: string,
    cuisine: Cuisine,
    prepTime: string,
    calories: int,
    ingredients: seq<Ingredient>,
    steps: seq<string>,
    healthTags: seq<string>,
    isFavorite: bool,
    description: Option<string>)

  datatype UserPreferences = UserPreferences(
    name: string,
    allergies: seq<string>,
    dietaryPreference: Diet,
    deficiencies: seq<string>)

  /** A ShoppingItem is an Ingredient (name, quantity) extended with id, checked, recipeName. */
  datatype ShoppingItem = ShoppingItem(
    id: string,
    name: string,
    quantity: Option<string>,
    checked: bool,
    recipeName: Option<string>)

  datatype ViewState = Dashboard | Kitchen | Shopping | Recommend | Profile

  /** The user part of an identity-provider session; either field may be missing. */
  datatype AuthUser = AuthUser(id: Option<string>, email: Option<string>)

  /** An identity-provider session; its `user` may be missing. */
  datatype Session = Session(user: Option<AuthUser>)

  /** `session?.user?.id` */
  function UserId(s: Option<Session>): Option<string> {
    if s.Some? && s.value.user.Some? then s.value.user.value.id else None
  }

  /** `session?.user?.email` */
  function UserEmail(s: Option<Session>): Option<string> {
    if s.Some? && s.value.user.Some? then s.value.user.value.email else None
  }

  /** The outcome of one awaited remote read: its value, or an exception. */
  datatype Fetch<T> = Fetched(value: T) | Threw

  /** A profile row as returned by the store; a missing column leaves the current value in place. */
  datatype ProfilePatch = ProfilePatch(
    name: Option<string>,
    allergies: Option<seq<string>>,
    dietaryPreference: Option<Diet>,
    deficiencies: Option<seq<string>>)

  /** One call issued to the remote store, in issue order. */
  datatype RemoteOp =
    | GetProfile(userId: string)
    | GetSavedRecipes(userId: string)
    | GetShoppingList(userId: string)
    | UpdateProfile(userId: string, prefs: UserPreferences)
    | AddFavorite(userId: string, recipe: Recipe)
    | RemoveFavorite(userId: string, recipeId: string)
    | AddShoppingItem(userId: string, item: ShoppingItem)
    | UpdateShoppingItem(userId: string, itemId: string, checked: bool)
    | DeleteShoppingItem(userId: string, itemId: string)
    | ClearShoppingList(userId: string)
}

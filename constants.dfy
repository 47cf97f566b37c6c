/** The static seed data of constants.ts: the recipe catalog and the default profile. */
module Constants {
  import opened Types

  /** MOCK_RECIPES: the fixed catalog with ids "1" to "4". Recipe "1" ships as a favorite. */
  const MockRecipes: seq<Recipe> := [PalakPaneer, MasalaDosa, MacherJhol, Dhokla]

  const PalakPaneer: Recipe :=
    Recipe(
      "1", "Palak Paneer",
      "https://images.unsplash.com/photo-1589647363585-f4a7d3877b10?q=80&w=1000&auto=format&fit=crop",
      North, "40 mins", 320,
      [ Ingredient("Spinach", Some("500g")),
        Ingredient("Paneer", Some("200g")),
        Ingredient("Garlic", Some("4 cloves")),
        Ingredient("Ginger", Some("1 inch")),
        Ingredient("Cream", Some("2 tbsp")) ],
      [ "Blanch spinach and blend into a paste.",
        "Sauté garlic and ginger in ghee.",
        "Add spices and spinach puree.",
        "Simmer and add paneer cubes.",
        "Finish with fresh cream." ],
      ["High Iron", "Calcium Rich", "Keto Friendly"],
      true,
      Some("A creamy and nutritious spinach curry with cottage cheese."))

  const MasalaDosa: Recipe :=
    Recipe(
      "2", "Masala Dosa",
      "https://images.unsplash.com/photo-1589301760014-d929f3979dbc?q=80&w=1000&auto=format&fit=crop",
      South, "20 mins (plus fermentation)", 180,
      [ Ingredient("Rice Batter", Some("2 cups")),
        Ingredient("Potatoes", Some("3 boiled")),
        Ingredient("Onions", Some("1 large")),
        Ingredient("Mustard Seeds", Some("1 tsp")) ],
      [ "Prepare potato masala with spices and onions.",
        "Spread batter on a hot griddle.",
        "Add ghee and crisp up the dosa.",
        "Stuff with masala and roll." ],
      ["Probiotic", "Gluten Free", "Energy Boosting"],
      false,
      Some("Crispy fermented crepe stuffed with spiced potatoes."))

  const MacherJhol: Recipe :=
    Recipe(
      "3", "Macher Jhol",
      "https://images.unsplash.com/photo-1626132647523-66f5bf380027?q=80&w=1000&auto=format&fit=crop",
      East, "45 mins", 250,
      [ Ingredient("Fish Fillet (Rohu)", Some("4 pcs")),
        Ingredient("Potatoes", Some("2")),
        Ingredient("Tomato", Some("1")),
        Ingredient("Mustard Oil", Some("2 tbsp")) ],
      [ "Marinate fish with turmeric and salt.",
        "Fry fish lightly and set aside.",
        "Prepare curry base with spices and potatoes.",
        "Simmer fish in the curry until cooked." ],
      ["High Protein", "Omega-3", "Heart Healthy"],
      false,
      Some("A traditional Bengali fish curry rich in flavors."))

  const Dhokla: Recipe :=
    Recipe(
      "4", "Dhokla",
      "https://images.unsplash.com/photo-1601050690597-df0568f70950?q=80&w=1000&auto=format&fit=crop",
      West, "25 mins", 150,
      [ Ingredient("Gram Flour", Some("1 cup")),
        Ingredient("Yogurt", Some("1/2 cup")),
        Ingredient("Green Chili", Some("2")),
        Ingredient("Eno Fruit Salt", Some("1 tsp")) ],
      [ "Mix flour, yogurt, and water into a batter.",
        "Steam the batter for 15-20 minutes.",
        "Prepare tempering with mustard seeds and curry leaves.",
        "Pour tempering over steamed dhokla." ],
      ["Low Calorie", "Protein Rich", "Diabetic Friendly"],
      false,
      Some("Steamed savory cake made from fermented batter."))

  /** INITIAL_USER: the default profile, kept for guests and until a stored profile loads. */
  const InitialUser: UserPreferences :=
    UserPreferences("Guest User", ["Peanuts"], Veg, ["Iron", "Vitamin D"])
}

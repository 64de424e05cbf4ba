/** navigation/AppNavigator.js: the icon each bottom tab shows. */
module AppNavigator {
  import opened Text

  const Kitchen := "kitchen"
  const Restaurant := "restaurant"
  const Person := "person"
  const Circle := "circle"

  /** The route names of the recipes stack (lines 20-25) and of the tabs. */
  const FridgeRoute := "Fridge"
  const RecipesRoute := "Recipes"
  const ProfileRoute := "Profile"
  const RecipesListRoute := "RecipesList"
  const RecipeDetailRoute := "RecipeDetail"

  /** `getTabBarIcon`: total, and each icon has exactly the route names
      listed for it. */
  function TabBarIcon(routeName: string): (icon: string)
    ensures icon == Kitchen <==> routeName == FridgeRoute
    ensures icon == Restaurant <==> routeName in {RecipesRoute, RecipeDetailRoute, RecipesListRoute}
    ensures icon == Person <==> routeName == ProfileRoute
    ensures icon == Circle <==>
      routeName !in {FridgeRoute, RecipesRoute, ProfileRoute, RecipeDetailRoute, RecipesListRoute}
  {
    match routeName
    case "Fridge" => Kitchen
    case "Recipes" => Restaurant
    case "Profile" => Person
    case "RecipeDetail" => Restaurant
    case "RecipesList" => Restaurant
    case _ => Circle
  }

  /** Line 60: the focused nested route's name when the tab has one
      (`??` keeps even an empty name), otherwise the tab's own name. */
  function IconRouteName(focused: Option<string>, tabName: string): (name: string)
    ensures focused.Some? ==> name == focused.value
    ensures focused.None? ==> name == tabName
  {
    match focused
    case Some(n) => n
    case None => tabName
  }

  /** The recipes tab keeps its icon whichever screen of its stack is in
      front, and before any is focused. */
  lemma {:induction false} RecipesTabIcon(focused: Option<string>)
    requires focused.None? || focused.value in {RecipesListRoute, RecipeDetailRoute}
    ensures TabBarIcon(IconRouteName(focused, RecipesRoute)) == Restaurant
  {
  }
}

/** The recipe records decoded from the catalogue. */
module Recipes {
  import opened Wrappers

  /** A recipe. The small photo URL is always present. */
  datatype Recipe = Recipe(
    cuisine: string,
    name: string,
    photoUrlLarge: string,
    photoUrlSmall: string,
    sourceURL: Option<string>,
    uuid: string,
    youtubeURL: Option<string>)

  /** The catalogue body: a single list of recipes. */
  datatype RecipeList = RecipeList(recipes: seq<Recipe>)
}

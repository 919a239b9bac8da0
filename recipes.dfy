/** The recipe record as the DummyJSON recipes API returns it. */
module Recipes {
  import opened Wrappers

  /** The fields of a recipe the script reads. The list fields may be absent from a response,
      which the script covers with `|| []`; absent is `None`. */
  datatype Recipe = Recipe(
    id: int,
    name: string,
    image: string,
    cuisine: string,
    difficulty: string,
    prepTimeMinutes: int,
    cookTimeMinutes: int,
    ingredients: Option<seq<string>>,
    instructions: Option<seq<string>>,
    tags: Option<seq<string>>,
    mealType: Option<seq<string>>)
}

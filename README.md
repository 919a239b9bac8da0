# RecipeSystem browser script, modelled in Dafny

`js/script.js` is the client of a recipe browser built on the DummyJSON recipes API. It lists
recipes 30 at a time with infinite scroll. The list can be sorted, searched, or filtered by tag
or meal type. Recipes can be added, edited and deleted (the API only pretends to store the
changes). The script keeps its state in module-level variables and moves it forward from event
handlers and from the continuation of `fetchFromAPI`.

This project models the parts of that script that are not drawing or networking:

- `RecipeListing.RecipeBrowser` is a class whose fields are the script's globals:
  - `currentPage`, `totalRecipes`, `currentRecipes`, `isLoadingMore`, `currentApiCallType`
    and `currentApiQuery`;
  - the recipe grid, reduced to a sequence of cells (recipe cards, "No recipes found.", the
    "No more recipes" marker, "Could not load recipes.").
- Its methods are the handlers. `fetchFromAPI` is split at its `await` into `Begin` (guard, flag,
  page reset) and `Complete` (result, totals, display, error path, `finally`). Each network
  response is a parameter. A handler that the page does not await returns the request it
  issued; the environment later passes that request's response to `Complete`.
- `ApiRequest` models the request side:
  - the arguments of `fetchFromAPI`, the call each handler builds, and the URL choice;
  - `encodeURIComponent` and `URLSearchParams` serialisation as uninterpreted functions;
  - the response shapes and the value `fetchFromAPI` returns.
- `RecipeForm` is the add/edit form: list parsing (`split`, `trim`, drop empty), defaults,
  `parseInt(..) || 0`, and the joins that refill the form for editing.
- `FilterCatalog` is `populateFilterDropdowns`: building the tag menu with capitalised labels,
  and collecting, de-duplicating and sorting the meal types with a nested loop.
- `JsText` holds the JavaScript built-ins those parts rely on:
  - `trim`, `split` and `join`;
  - ASCII case mapping;
  - `parseInt` (whitespace, sign, `0x` prefix, longest digit prefix) and `String(n)` for integers;
  - the default `Array.prototype.sort` order on strings.

Integers are unbounded. Strings are `seq<char>`.

The model follows the code as written, including these behaviours:

- A failed load-more GET replaces the whole grid with the error message and sets the total
  to 0. The existing prefix is not kept.
- A sort change goes through `fetchAllRecipes(false)`, which forces mode 'all' and drops any
  search or filter (js/script.js:190-191, 293).
- Filter and search URLs never carry `sortBy`/`order`, even when the scroll handler puts them
  in the query parameters.
- A failed corpus fetch in `populateFilterDropdowns` leaves the tag menu already rebuilt.
- `handleScroll` increments `currentPage` before the request and never rolls it back, even
  when the request fails.
- After an empty first page (total 0, page 1) the scroll condition still holds, so one more
  request at skip 30 is made.
- `fetchAllRecipes(true)` is never called by the script. Its "no more" early exit is modelled
  as written and is unreachable from the handlers.

## Model

| member | source | states |
|---|---|---|
| JsText.Trim | js/script.js:340-341 | the result has no leading or trailing JavaScript whitespace and is no longer than the input |
| JsText.IsWhitespace | js/script.js:340-348 | the ECMAScript WhiteSpace and LineTerminator characters that `trim` removes, also at line 441 (definition; Trim, TrimStart and TrimEnd are characterised by it) |
| JsText.TrimStart | js/script.js:441 | the result is a suffix of the input, the part removed is all whitespace, and the result does not start with whitespace |
| JsText.TrimEnd | js/script.js:441 | the result is a prefix of the input, the part removed is all whitespace, and the result does not end with whitespace |
| JsText.TrimKeepsOut | js/script.js:340 | trimming never introduces a character that was not in the text |
| JsText.TrimOfTrimmed | js/script.js:340 | trimming an already trimmed string changes nothing |
| JsText.TrimBlank | js/script.js:340 | a blank string trims to the empty string |
| JsText.TrimPadded | js/script.js:340 | whitespace in front of a trimmed item is removed and the item kept exactly |
| JsText.Split | js/script.js:340-341 | `split` gives at least one piece and no piece contains the separator |
| JsText.SplitNoSep | js/script.js:340 | a string without the separator splits into itself alone |
| JsText.SplitAtSep | js/script.js:340 | the text before the first separator is the first piece |
| JsText.SplitConcat | js/script.js:340 | splitting `a + sep + b` gives the pieces of `a` followed by those of `b` |
| JsText.JoinSplit | js/script.js:340-341 | joining the pieces of a split with the separator gives the string back |
| JsText.SplitJoin | js/script.js:312-313 | splitting a join of separator-free items gives the items back |
| JsText.Join | js/script.js:312-313 | `Array.prototype.join` (definition; JoinSplit and SplitJoin tie it to Split) |
| JsText.NatToDigitsShape | js/script.js:315-316 | `String(n)` of a natural number is decimal digits without a leading zero and denotes n |
| JsText.IntToString | js/script.js:315-316 | `String(n)` (definition; ParseIntRoundTrip states that it reads back as n) |
| JsText.ParseInt | js/script.js:343 | `parseInt` with no radix (definition; ParseIntRoundTrip, ParseIntBlank and ParseIntMinus state its results) |
| JsText.LeadingDigitsAll | js/script.js:343 | `parseInt` reads all of a string made only of digits |
| JsText.MagnitudeOfDigits | js/script.js:343 | the digits of `String(m)` parse to m |
| JsText.TrimStartNoLead | js/script.js:343 | a string that does not start with whitespace is left as it is by `parseInt`'s leading trim |
| JsText.ParseIntUnsigned | js/script.js:343 | digits that read as m parse to m |
| JsText.ParseIntMinus | js/script.js:343 | a minus sign before digits that read as m parses to -m |
| JsText.ParseIntOfDigits | js/script.js:343 | `parseInt(String(m))` is m for a natural m |
| JsText.ParseIntOfNegative | js/script.js:343 | `parseInt("-" + String(m))` is -m |
| JsText.ParseIntRoundTrip | js/script.js:343-344 | `parseInt(String(n)) == n` for every integer n, so a time edited unchanged is sent back unchanged |
| JsText.ParseIntBlank | js/script.js:343 | a blank string parses to NaN |
| JsText.StrLeTotal | js/script.js:222 | the default sort order compares any two strings |
| JsText.StrLeTrans | js/script.js:222 | the default sort order is transitive |
| JsText.StrLeAntisym | js/script.js:222 | two strings that compare both ways are equal |
| JsText.StrLe | js/script.js:222 | the code-unit order of the default `sort()` (definition; StrLeTotal, StrLeTrans and StrLeAntisym make it a total order) |
| JsText.Insert | js/script.js:222 | the result holds the list's elements plus the inserted one, nothing more or less |
| JsText.SortStrings | js/script.js:222 | `Array.prototype.sort()` returns a permutation of its input |
| JsText.StrictlySortedTail | js/script.js:222 | the tail of a strictly sorted list is strictly sorted |
| JsText.InsertStrictlySorted | js/script.js:222 | inserting a new value into a strictly sorted list keeps it strictly sorted |
| JsText.SortStrictlySorted | js/script.js:222 | sorting a duplicate-free list gives a strictly increasing list |
| JsText.ToUpperCase | js/script.js:207 | `toUpperCase` on ASCII letters, character by character (definition; FormatTag states its effect) |
| JsText.ToLowerCase | js/script.js:207 | `toLowerCase` on ASCII letters, character by character (definition; FormatTag and FormatTagIdempotent state its effect) |
| RecipeForm.TrimAll | js/script.js:340-348 | `.map(item => item.trim())` trims each piece in place |
| RecipeForm.DropEmpty | js/script.js:340-348 | `.filter(item => item)` keeps exactly the non-empty items of the input |
| RecipeForm.ParseList | js/script.js:340-348 | every item of a parsed list field is non-empty, trimmed and free of the separator |
| RecipeForm.TrimAllConcat | js/script.js:340-348 | trimming pieces distributes over concatenation |
| RecipeForm.DropEmptyConcat | js/script.js:340-348 | dropping empty items distributes over concatenation |
| RecipeForm.ParseListPiece | js/script.js:340-348 | text without a separator parses to its trimmed self, or to nothing when blank |
| RecipeForm.ParseListConcat | js/script.js:340-348 | parsing keeps the original order: items before a separator come before those after it |
| RecipeForm.ParseBlank | js/script.js:340-348 | a blank field parses to the empty list |
| RecipeForm.ParsePaddedItem | js/script.js:340-348 | a well-formed item after whitespace parses to that one item |
| RecipeForm.ParseJoinedPadded | js/script.js:340-348 | leading whitespace before a joined list does not change what parses back |
| RecipeForm.ParseJoined | js/script.js:312-320 | joining with `", "` or `"; "` and parsing as lines 340-348 do gives the original list back when every item is non-empty, trimmed and separator-free |
| RecipeForm.ParseMinutes | js/script.js:343-344 | `parseInt(..) \|\| 0`: NaN becomes 0, otherwise the parsed integer |
| RecipeForm.OrDefault | js/script.js:342-346 | `value \|\| default` on a string: a non-empty value is kept, the empty one gives the default |
| RecipeForm.IsEditMode | js/script.js:330 | a non-empty recipe id in the form means edit mode (definition, used by BuildRecipeData and SaveCall) |
| RecipeForm.BuildRecipeData | js/script.js:338-352 | each list field is the parse of its input (so well formed); a non-empty image, cuisine or difficulty is kept and an empty one becomes the placeholder, `Unknown` or `Medium`; a parsable time is kept and an unparsable one becomes 0; the name is kept; `userId` is 5 exactly for a new recipe |
| RecipeForm.EditForm | js/script.js:309-320 | the form filled for editing is in edit mode and its id field parses back to the recipe's id |
| RecipeForm.EditThenSubmit | js/script.js:304-352 | submitting the edit form unchanged sends every field of the recipe back, with the defaults in place of empty text, when its lists are well formed |
| FilterCatalog.TagLabel | js/script.js:204 | a string tag is kept, an object tag with a non-empty name gives the name |
| FilterCatalog.FormatTag | js/script.js:207 | the label has the tag's length, its first character is the upper-cased first character, the rest has no upper-case letter |
| FilterCatalog.FormatTagSameLetters | js/script.js:207 | the label differs from the tag only in letter case |
| FilterCatalog.FormatTagIdempotent | js/script.js:207 | formatting a formatted label changes nothing |
| FilterCatalog.TagOptions | js/script.js:204-209 | one menu entry per tag, in response order, whose value is the tag and whose text is its formatted label |
| FilterCatalog.MealTypesOf | js/script.js:217-218 | the strings of a recipe's `mealType` when it is an array, none otherwise (definition; CollectMealTypes' ensures collects exactly these) |
| FilterCatalog.CollectMealTypes | js/script.js:214-222 | the meal-type catalog is strictly sorted (so free of duplicates) and holds exactly the strings that appear in some recipe's `mealType` |
| FilterCatalog.PopulateFilterDropdowns | js/script.js:199-231 | a failed tag fetch changes no menu; a failed corpus fetch leaves only the tag menu rebuilt; on success the meal-type menu is the sorted exact catalog |
| ApiRequest.ShapeOf | js/script.js:133-137 | the URL is built from the endpoint exactly for single-recipe, PUT and DELETE requests; the plain listing branch is taken only by a call that is neither a search nor a filter |
| ApiRequest.Lookup | js/script.js:135-136 | `queryParams.key` inside a template literal, `"undefined"` for a missing key (definition; ParamLookups and ScrollParamLookups read it back) |
| ApiRequest.RequestUrl | js/script.js:133-137 | the URL choice itself (definition; ShapeOf picks the branch, the URL lemmas below state each branch's result) |
| ApiRequest.IsListingGet | js/script.js:119 | the fresh-listing test: a non-single-recipe GET to the base, `tag/`, `meal-type/` or search endpoint (definition; HandlerCallsAreListings applies it) |
| ApiRequest.PageParams | js/script.js:259 | `{ limit: RECIPES_PER_PAGE, skip }`, also at line 276 (definition; FirstPageLookups and ScrollParamLookups read it back) |
| ApiRequest.SortedPageParams | js/script.js:194 | the page parameters followed by `sortBy` and `order`, also at line 409 (definition; ScrollCall's ensures and ScrollParamLookups use it) |
| ApiRequest.IsTruthy | js/script.js:413-420 | the truthiness test on `currentApiQuery`: neither null nor empty (definition; ScrollCall's ensures picks the mode by it) |
| ApiRequest.AllRecipesCall | js/script.js:194-195 | `fetchAllRecipes`' request with limit, skip, sortBy and order (definition) |
| ApiRequest.TagFilterCall | js/script.js:258-259 | a GET of page 1 without the sort, a filter exactly for a non-empty tag and then to the endpoint `tag/<tag>`, never a load-more |
| ApiRequest.MealTypeFilterCall | js/script.js:275-276 | a GET of page 1 without the sort, a filter exactly for a non-empty meal type and then to the endpoint `meal-type/<m>`, never a load-more |
| ApiRequest.SearchCall | js/script.js:450 | the search request with `q`, limit and skip 0 (definition) |
| ApiRequest.ScrollCall | js/script.js:408-426 | a load-more GET whose first four parameters are limit, skip, sortBy and order; a search exactly in mode 'search' with a truthy query, a filter exactly in mode 'tag' or 'mealType' with a truthy query |
| ApiRequest.RecipeCall | js/script.js:307 | a single-recipe GET to the endpoint `String(id)` |
| ApiRequest.DeleteCall | js/script.js:375 | a single-recipe DELETE to the endpoint `String(id)` |
| ApiRequest.SaveCall | js/script.js:357-358 | a PUT to the form's id in edit mode and a POST otherwise, never a load-more |
| ApiRequest.SearchUrlReadsOnlyQLimitSkip | js/script.js:135 | two search calls that agree on `q`, `limit` and `skip` get the same URL, whatever else their parameters hold |
| ApiRequest.FilterUrlReadsOnlyLimitSkip | js/script.js:136 | two filter calls to the same endpoint that agree on `limit` and `skip` get the same URL |
| ApiRequest.DirectUrlIsEndpoint | js/script.js:133 | PUT, DELETE and single-recipe requests go to `<base>/<endpoint>` |
| ApiRequest.ListingUrlCarriesEveryParam | js/script.js:137 | with a serialisation that tells parameter lists apart, two plain listing calls get the same URL exactly when their parameters are equal |
| ApiRequest.ParamLookups | js/script.js:409 | `limit`, `skip` and `q` are read from where the scroll handler puts them |
| ApiRequest.ScrollParamLookups | js/script.js:406-413 | the scroll parameters render `limit` as 30 and `skip` as the requested offset |
| ApiRequest.RenderedPageSize | js/script.js:3 | the page size renders as `"30"` and a zero skip as `"0"` |
| ApiRequest.HandlerCallsAreListings | js/script.js:119 | every listing request a handler issues (lines 195, 259, 276, 426 and 450) is a fresh listing GET or a load-more |
| ApiRequest.RecordCallsAreNotListings | js/script.js:119 | the single-recipe and delete requests are neither fresh listings nor load-mores |
| ApiRequest.RecipeEndpointIsId | js/script.js:307 | the single-recipe and delete requests go to an endpoint that reads back as the recipe id |
| ApiRequest.ScrollFilterUrl | js/script.js:409-423 | a scrolled tag or meal-type page gets `<base>/tag/<q>?limit=30&skip=<skip>` (or `meal-type/`), without the sort parameters |
| ApiRequest.ScrollFilterUrlIgnoresSort | js/script.js:409-423 | the URL of a scrolled tag or meal-type page is the same for every sort |
| ApiRequest.ScrollSearchUrl | js/script.js:409-416 | a scrolled search page gets `<base>/search?q=<encoded q>&limit=30&skip=<skip>` and no sort |
| ApiRequest.ScrollListingUrl | js/script.js:408-424 | in mode 'all', or with an empty query, scrolling serialises every parameter, the sort included |
| ApiRequest.ScrollSkipParam | js/script.js:405-409 | the `skip` a scroll request sends reads back as the offset it was built from |
| ApiRequest.ClearedFilterUrl | js/script.js:258-259 | "All Tags" and "All Meal Types" (also lines 275-276) request the base listing with `limit` and `skip` only, so without the sort |
| ApiRequest.FilterFirstPageUrl | js/script.js:257-259 | the first page of a chosen tag is `<base>/tag/<tag>?limit=30&skip=0`, and of a meal type `<base>/meal-type/<m>?limit=30&skip=0` (also lines 274-276), without the sort |
| ApiRequest.FirstPageLookups | js/script.js:259 | the page-1 parameters render `limit` as `"30"` and `skip` as `"0"` |
| ApiRequest.ResultOf | js/script.js:139-177 | `fetchFromAPI` returns null exactly on the error path, `undefined` exactly for a listing response, a deletion report exactly for a DELETE that did not fail (the decoded body, or the id endpoint for a 204), and exactly for a successful single-recipe GET, POST or PUT the decoded body itself |
| ApiRequest.FailsOn | js/script.js:141-152 | the cases that reach the catch: a failed fetch, a non-2xx status, and a 204 outside DELETE whose `response.json()` rejects (definition; ResultOf's ensures returns null exactly on these) |
| ApiRequest.ReturnsData | js/script.js:154 | single-recipe, POST and PUT calls return the decoded data (definition; used by ResultOf's ensures) |
| ApiRequest.IsListingResponse | js/script.js:155-158 | a successful non-DELETE listing answer, which updates the grid and returns undefined (definition; ResultOf's ensures returns Undefined exactly on these) |
| ApiRequest.ReportedTotal | js/script.js:156-157 | the listing total is `data.total` when present; otherwise, for a filter or search, the number of recipes returned, else absent |
| RecipeListing.Cards | js/script.js:89-103 | one card per recipe, in order, carrying the recipe's id |
| RecipeListing.IsEmptyPage | js/script.js:99 | `!recipes \|\| recipes.length === 0`, also at line 104 (definition; DisplayedGrid's ensures branches on it) |
| RecipeListing.CardsConcat | js/script.js:103 | the cards of two pages together are the cards of the first followed by those of the second |
| RecipeListing.CardsHaveNoMarker | js/script.js:402 | cards alone never hold the "no more" marker |
| RecipeListing.DisplayedGrid | js/script.js:92-110 | the first page replaces the grid with its cards or with "No recipes found."; a later page keeps the grid as a prefix and appends its cards, or the marker when it is empty |
| RecipeListing.ScrolledPagesConcatenate | js/script.js:92-103 | a scrolled page is appended after the cards already shown, so the grid is the cards of all pages in order |
| RecipeListing.FirstPageForgetsGrid | js/script.js:95-97 | the first page's grid does not depend on what was shown before |
| RecipeListing.RemoveCards | js/script.js:381 | the recipe's cards are removed and every other cell is kept with its multiplicity; a grid without such a card is unchanged |
| RecipeListing.RemoveCardsConcat | js/script.js:381 | removal works cell by cell, so the remaining cells keep their order |
| RecipeListing.RemoveCardsCell | js/script.js:381 | a single cell is dropped exactly when it is a card of the recipe |
| RecipeListing.Decrement | js/script.js:382 | a known total goes down by exactly 1; an undefined total stays undefined (NaN) |
| RecipeListing.ScrollStopsAtTotal | js/script.js:398-402 | once the pages shown cover a positive total, scrolling requests nothing |
| RecipeListing.ScrollSkipWithinTotal | js/script.js:398-406 | a scroll request asks for a skip below the total, except right after an empty first page |
| RecipeListing.ScrollFires | js/script.js:398-402 | the scroll condition: near the bottom, not loading, a page below the total or an empty first page, and no marker (definition; ScrollStopsAtTotal and ScrollSkipWithinTotal state its consequences) |
| RecipeListing.NoMoreToFetch | js/script.js:182 | `skip >= totalRecipes && totalRecipes > 0`, false for an undefined total (definition) |
| RecipeListing.HasNonMarker | js/script.js:384 | the grid holds a cell other than the marker (definition) |
| RecipeListing.SaveSucceeded | js/script.js:360 | a save succeeded when the answer carries a truthy `id` (definition) |
| RecipeListing.Payload | js/script.js:338-354 | the data built from the form in the form's own mode, so with `userId` 5 for a new recipe (definition; PreparePayload's ensures states its properties) |
| RecipeListing.PreparePayload | js/script.js:333-352 | a payload is sent exactly for a form that passes validation; it is the form's built data, its lists are well formed, and it has no `userId` exactly in edit mode, 5 otherwise |
| RecipeListing.EditSavesToSameRecipe | js/script.js:357 | saving the edit form is a PUT to the URL the recipe was fetched from |
| RecipeListing.NewRecipeSavesToAdd | js/script.js:358 | a new recipe is a POST to `<base>/add` |
| RecipeListing.RecipeBrowser.constructor | js/script.js:6-11 | page 1, total 0, no recipes, not loading, mode 'all', no query, empty grid |
| RecipeListing.RecipeBrowser.Begin | js/script.js:114-122 | a load-more while one is in flight changes nothing and issues nothing; a load-more raises the flag; a fresh listing GET resets the page to 1 and empties the grid; anything else changes nothing |
| RecipeListing.RecipeBrowser.DisplayRecipes | js/script.js:92-110 | the grid becomes `DisplayedGrid` of the old grid; the total becomes 0 exactly for an empty first page |
| RecipeListing.RecipeBrowser.Complete | js/script.js:139-177 | returns `ResultOf`; a listing response sets `currentRecipes` to the latest page only, the total to the reported total, and displays the page; a failed listing GET shows the error and sets the total to 0; a load-more leaves the flag cleared on every path; nothing else changes |
| RecipeListing.RecipeBrowser.FetchAllRecipes | js/script.js:180-196 | a fresh call resets page, mode and query and issues the page-1 listing with the sort; a load-more past a positive total appends the marker and clears the flag; otherwise the load-more at skip `currentPage*30` is issued unless one is in flight |
| RecipeListing.RecipeBrowser.HandleSortChange | js/script.js:291-294 | a sort change requests page 1 of every recipe and forces mode 'all' with no query |
| RecipeListing.RecipeBrowser.HandleTagFilterClick | js/script.js:245-260 | mode 'tag' for a tag and 'all' for the empty one, the tag as the query, page 1, empty grid, and the tag request |
| RecipeListing.RecipeBrowser.HandleMealTypeFilterClick | js/script.js:262-277 | mode 'mealType' for a meal type and 'all' for the empty one, the value as the query, page 1, empty grid, and the meal-type request |
| RecipeListing.RecipeBrowser.HandleSearchSubmit | js/script.js:439-453 | the input value is trimmed, then handled as the term below |
| RecipeListing.RecipeBrowser.SubmitSearchTerm | js/script.js:443-453 | a non-blank term selects mode 'search' with that query and requests the search; a blank one falls back to every recipe with no query; page 1 and empty grid either way |
| RecipeListing.RecipeBrowser.HandleScroll | js/script.js:393-428 | a request is issued exactly when the scroll condition holds; then the page goes up by exactly 1, the flag is raised and the skip is the old page times 30 in the current mode; otherwise nothing changes |
| RecipeListing.RecipeBrowser.HandleEditRecipeClick | js/script.js:304-325 | a fetched recipe fills the edit form; a missing id or a failed fetch fills nothing; the listing state is unchanged |
| RecipeListing.RecipeBrowser.SaveRecipe | js/script.js:355-366 | the write is a PUT in edit mode and a POST to `add` otherwise; a truthy `id` in the answer reloads page 1 of every recipe in mode 'all'; otherwise the listing state is unchanged |
| RecipeListing.RecipeBrowser.HandleAddEditRecipeSubmit | js/script.js:327-366 | an invalid form sends nothing and changes nothing; a valid one sends the built payload with the matching write, then behaves as `SaveRecipe` |
| RecipeListing.RecipeBrowser.HandleDeleteRecipeClick | js/script.js:369-390 | a confirmed delete of a known id that the API does not reject removes that recipe's cards and lowers the total by 1; an emptied grid is redisplayed as an empty page; otherwise nothing changes |
| RecipeListing.LoadFirstPage | js/script.js:436 | the initial `fetchAllRecipes(false)` followed by a listing answer: the grid holds the page's cards, the total is the reported one, page 1, mode 'all', not loading |
| RecipeListing.LoadMoreScenario | js/script.js:393-428 | for any first page of 30 and second page of 15 of a listing of 45: the scroll request is the 'all' listing at skip 30, the grid ends as the cards of both pages in order, and a further scroll requests nothing |
| RecipeListing.FilterWithoutTotalScenario | js/script.js:156-157 | for any tag page of 12 recipes without `total`: the total becomes 12, the grid is their cards, and scrolling requests nothing more |

## Left out

- jQuery and DOM work: skeleton cards, HTML templates, toasts, modals, dropdown labels and
  active classes (`resetActiveFiltersAndSearch`), and `event.preventDefault`. The grid is
  reduced to the cells listed above.
- `confirm` and the browser's form validation are boolean inputs.
- `fetch`, HTTP status codes and `response.json()` are reduced to a response input: failed,
  empty 204, or a decoded body.
- Interleaving of requests beyond the `Begin`/`Complete` split is not modelled. A handler whose
  code awaits its request (edit, save, delete) takes the response as a parameter and runs
  to the end atomically.
- The detail view (`displayRecipeDetails`, `handleViewRecipeClick`) is left out. It renders
  a fetched recipe and stores the recipe's id on the modal and on the modal's edit and delete
  buttons (js/script.js:281). The edit and delete handlers read that id, so the model takes
  it as their `recipeId` input.
- `prepareAddRecipeModal` is left out. It only clears the form in the page.
- The calories, rating and review count drawn with `Math.random` for a new recipe, and
  `toFixed`, are left out: they are randomness and floating point.
- Scroll geometry is a boolean `nearBottom` input.
- The commented-out pagination code is left out because it is dead.
- `encodeURIComponent` and `URLSearchParams` serialisation are uninterpreted functions.
- JavaScript values that have no place in the types above are left out:
  - jQuery's `data()` turning numeric-looking attributes into numbers;
  - a recipe id of 0 falling through to `dataset.recipeId` (a missing id is `None`);
  - a string `id` in a save response.
- `JsText.ToUpperCase`, `JsText.ToLowerCase`: map ASCII letters only, not the full Unicode case
  tables.
- `JsText.StrLe`: orders by code point, which is the UTF-16 code-unit order only outside the
  surrogate range.
- `JsText.ParseInt`, `JsText.IntToString`: use unbounded integers. The float precision
  `parseInt` loses above 2^53, and the exponent form `String` uses for large numbers, are not
  modelled.
- `RecipeListing.RecipeBrowser.HandleEditRecipeClick`: fills the form only from a body shaped
  like a recipe. A truthy body of another shape would fill it with `undefined` fields.
- `RecipeListing.RecipeBrowser.Begin`: the removal of `#noMoreRecipesMessage` before a
  fresh listing is not a separate step, because emptying the grid subsumes it. The same holds
  in the filter and search handlers.

/** The page state of the script: the recipe grid, the paging counters and the current listing
    mode, and the handlers that change them. `fetchFromAPI` is split at its `await` into
    `Begin` (what happens before the request) and `Complete` (what happens once the response
    has arrived); a handler that the page does not await returns the request it issued. */
module RecipeListing {
  import opened Wrappers
  import opened JsText
  import opened Recipes
  import opened RecipeForm
  import opened ApiRequest

  /** A child of the recipe grid: a recipe card, the "No recipes found." message, the
      `#noMoreRecipesMessage` marker, or the "Could not load recipes." message. */
  datatype Cell = Card(id: int) | NoResults | NoMore | LoadError

  /** The cards of a page of recipes, in order. */
  function Cards(rs: seq<Recipe>): (cells: seq<Cell>)
    ensures |cells| == |rs|
    ensures forall i :: 0 <= i < |rs| ==> cells[i] == Card(rs[i].id)
  {
    if rs == [] then [] else [Card(rs[0].id)] + Cards(rs[1..])
  }

  lemma {:induction false} CardsConcat(a: seq<Recipe>, b: seq<Recipe>)
    ensures Cards(a + b) == Cards(a) + Cards(b)
  {
    if a == [] {
      assert a + b == b;
    } else {
      assert (a + b)[1..] == a[1..] + b;
      CardsConcat(a[1..], b);
    }
  }

  /** `!recipes || recipes.length === 0` */
  predicate IsEmptyPage(recipes: Option<seq<Recipe>>)
  {
    recipes.None? || recipes.value == []
  }

  /** The grid after `displayRecipes(recipes)` on page `page`: the first page replaces the grid,
      a later page appends its cards, or the marker when it is empty. */
  function DisplayedGrid(grid: seq<Cell>, page: int, recipes: Option<seq<Recipe>>): (r: seq<Cell>)
    ensures page == 1 && IsEmptyPage(recipes) ==> r == [NoResults]
    ensures page == 1 && !IsEmptyPage(recipes) ==> r == Cards(recipes.value)
    ensures page > 1 ==> |grid| < |r| && r[..|grid|] == grid
    ensures page > 1 && !IsEmptyPage(recipes) ==> r == grid + Cards(recipes.value)
    ensures page > 1 && IsEmptyPage(recipes) ==> r == grid + [NoMore]
  {
    if page == 1 then
      if IsEmptyPage(recipes) then [NoResults] else Cards(recipes.value)
    else if !IsEmptyPage(recipes) then grid + Cards(recipes.value)
    else if page > 1 then grid + [NoMore]
    else grid
  }

  /** Infinite scroll keeps the arrival order: when the grid holds the cards of the recipes shown
      so far, displaying a further non-empty page leaves the cards of all of them, in order. */
  lemma ScrolledPagesConcatenate(shown: seq<Recipe>, page: int, rs: seq<Recipe>)
    requires page > 1 && rs != []
    ensures DisplayedGrid(Cards(shown), page, Some(rs)) == Cards(shown + rs)
  {
    CardsConcat(shown, rs);
  }

  /** The first page does not depend on what the grid held before. */
  lemma FirstPageForgetsGrid(a: seq<Cell>, b: seq<Cell>, recipes: Option<seq<Recipe>>)
    ensures DisplayedGrid(a, 1, recipes) == DisplayedGrid(b, 1, recipes)
  {
  }

  /** The grid after `$('.recipe-card-col[data-recipe-id="id"]').remove()`. */
  function RemoveCards(grid: seq<Cell>, id: int): (kept: seq<Cell>)
    ensures forall c :: c in kept <==> c in grid && c != Card(id)
    ensures multiset(kept) == multiset(grid)[Card(id) := 0]
    ensures Card(id) !in grid ==> kept == grid
  {
    if grid == [] then []
    else
      assert grid == [grid[0]] + grid[1..];
      (if grid[0] == Card(id) then [] else [grid[0]]) + RemoveCards(grid[1..], id)
  }

  /** Removing works cell by cell: the cells of each part keep their order and the parts stay in
      place, so the other cells are neither reordered nor merged. */
  lemma {:induction false} RemoveCardsConcat(a: seq<Cell>, b: seq<Cell>, id: int)
    ensures RemoveCards(a + b, id) == RemoveCards(a, id) + RemoveCards(b, id)
  {
    if a == [] {
      assert a + b == b;
    } else {
      assert (a + b)[1..] == a[1..] + b;
      RemoveCardsConcat(a[1..], b, id);
    }
  }

  /** A single cell is dropped exactly when it is a card of the recipe. */
  lemma RemoveCardsCell(c: Cell, id: int)
    ensures RemoveCards([c], id) == if c == Card(id) then [] else [c]
  {
    assert [c][1..] == [];
  }

  /** `recipeCardGrid.children(':not(#noMoreRecipesMessage)').length !== 0` */
  predicate HasNonMarker(grid: seq<Cell>)
  {
    exists i :: 0 <= i < |grid| && grid[i] != NoMore
  }

  /** `totalRecipes--`; a total that is `undefined` becomes `NaN` and stays absent. */
  function Decrement(total: Option<int>): (r: Option<int>)
    ensures r.Some? <==> total.Some?
    ensures total.Some? ==> r.value + 1 == total.value
  {
    if total.Some? then Some(total.value - 1) else None
  }

  /** The condition of `handleScroll`; `nearBottom` stands for the window geometry test. An absent
      total compares false both ways. */
  predicate ScrollFires(nearBottom: bool, loading: bool, page: int, total: Option<int>, grid: seq<Cell>)
  {
    nearBottom && !loading
    && ((total.Some? && page * RECIPES_PER_PAGE < total.value) || (total == Some(0) && page == 1))
    && NoMore !in grid
  }

  /** Once the recipes shown cover a positive total, scrolling requests nothing more. */
  lemma ScrollStopsAtTotal(nearBottom: bool, loading: bool, page: int, t: int, grid: seq<Cell>)
    requires t > 0 && page >= 1 && page * RECIPES_PER_PAGE >= t
    ensures !ScrollFires(nearBottom, loading, page, Some(t), grid)
  {
  }

  /** A scroll request asks for a skip below the total, except right after an empty first page,
      where it asks for the second page of nothing. */
  lemma ScrollSkipWithinTotal(nearBottom: bool, loading: bool, page: int, total: Option<int>, grid: seq<Cell>)
    requires page >= 1 && ScrollFires(nearBottom, loading, page, total, grid)
    ensures total.Some?
    ensures total.value > 0 ==> page * RECIPES_PER_PAGE < total.value
    ensures total.value <= 0 ==> total.value == 0 && page == 1
  {
  }

  /** `skip >= totalRecipes && totalRecipes > 0` in `fetchAllRecipes`. */
  predicate NoMoreToFetch(skip: int, total: Option<int>)
  {
    total.Some? && skip >= total.value && total.value > 0
  }

  /** A saved recipe is reported by a truthy `result.id`. */
  predicate SaveSucceeded(result: FetchResult)
  {
    result.Data? && IdField(result.body).Some? && IdField(result.body).value != 0
  }

  /** The body a form submit sends. */
  function Payload(form: FormFields): RecipeData
  {
    BuildRecipeData(form, IsEditMode(form))
  }

  /** The payload of a submit, sent only for a form that passes the browser's validation. */
  method PreparePayload(form: FormFields, formValid: bool) returns (sent: Option<RecipeData>)
    ensures sent.Some? <==> formValid
    ensures sent.Some? ==> sent.value == Payload(form)
    ensures sent.Some? ==> WellFormedList(sent.value.ingredients, ',') && WellFormedList(sent.value.instructions, ';')
    ensures sent.Some? ==> WellFormedList(sent.value.tags, ',') && WellFormedList(sent.value.mealType, ',')
    ensures sent.Some? ==> (sent.value.userId.None? <==> IsEditMode(form))
    ensures sent.Some? && !IsEditMode(form) ==> sent.value.userId == Some(NEW_RECIPE_USER_ID)
  {
    sent := if formValid then Some(Payload(form)) else None;
  }

  /** A new recipe is posted to `add`. */
  lemma NewRecipeSavesToAdd(codec: UrlCodec, form: FormFields)
    requires !IsEditMode(form)
    ensures SaveCall(form.recipeId, IsEditMode(form)).verb == POST
    ensures RequestUrl(codec, SaveCall(form.recipeId, IsEditMode(form))) == API_BASE_URL + "/add"
  {
  }

  /** The edit form's save goes to the recipe that filled it. */
  lemma EditSavesToSameRecipe(codec: UrlCodec, r: Recipe)
    ensures SaveCall(EditForm(r).recipeId, IsEditMode(EditForm(r))).verb == PUT
    ensures RequestUrl(codec, SaveCall(EditForm(r).recipeId, IsEditMode(EditForm(r))))
         == RequestUrl(codec, RecipeCall(r.id))
  {
  }

  class RecipeBrowser {
    var currentPage: int
    /** `totalRecipes`; `None` is `undefined` or `NaN`. */
    var totalRecipes: Option<int>
    /** `currentRecipes`; `None` is a listing without a `recipes` field. */
    var currentRecipes: Option<seq<Recipe>>
    var isLoadingMore: bool
    var currentApiCallType: CallType
    /** `currentApiQuery`; `None` is `null`. */
    var currentApiQuery: Option<string>
    var grid: seq<Cell>

    ghost predicate Valid()
      reads this
    {
      currentPage >= 1
    }

    /** The state when the script is loaded. */
    constructor ()
      ensures Valid()
      ensures currentPage == 1 && totalRecipes == Some(0) && currentRecipes == Some([])
      ensures !isLoadingMore && currentApiCallType == All && currentApiQuery == None && grid == []
    {
      currentPage := 1;
      totalRecipes := Some(0);
      currentRecipes := Some([]);
      isLoadingMore := false;
      currentApiCallType := All;
      currentApiQuery := None;
      grid := [];
    }

    /** `fetchFromAPI` up to the request: a load-more is refused while another is in flight,
        otherwise it raises the flag; a fresh listing resets the page and empties the grid
        (which also removes the marker). */
    method Begin(call: ApiCall) returns (issued: bool)
      requires Valid()
      modifies this`currentPage, this`isLoadingMore, this`grid
      ensures Valid()
      ensures issued <==> !(old(isLoadingMore) && call.isLoadMore)
      ensures !issued ==> currentPage == old(currentPage) && isLoadingMore && grid == old(grid)
      ensures issued && call.isLoadMore ==> isLoadingMore && currentPage == old(currentPage) && grid == old(grid)
      ensures issued && !call.isLoadMore && IsListingGet(call) ==>
        currentPage == 1 && grid == [] && isLoadingMore == old(isLoadingMore)
      ensures issued && !call.isLoadMore && !IsListingGet(call) ==>
        currentPage == old(currentPage) && grid == old(grid) && isLoadingMore == old(isLoadingMore)
    {
      if isLoadingMore && call.isLoadMore {
        return false;
      }
      issued := true;
      if call.isLoadMore {
        isLoadingMore := true;
      } else if IsListingGet(call) {
        currentPage := 1;
        grid := [];
      }
    }

    /** `displayRecipes(recipes)` */
    method DisplayRecipes(recipes: Option<seq<Recipe>>)
      modifies this`grid, this`totalRecipes
      ensures grid == DisplayedGrid(old(grid), currentPage, recipes)
      ensures totalRecipes == (if currentPage == 1 && IsEmptyPage(recipes) then Some(0) else old(totalRecipes))
    {
      if currentPage == 1 {
        grid := [];
      }
      if IsEmptyPage(recipes) && currentPage == 1 {
        grid := [NoResults];
        totalRecipes := Some(0);
      } else if !IsEmptyPage(recipes) {
        grid := grid + Cards(recipes.value);
      } else if currentPage > 1 {
        grid := grid + [NoMore];
      }
    }

    /** `fetchFromAPI` from the response on: a listing updates `currentRecipes`, the total and the
        grid; a failed listing GET replaces the grid with the error and zeroes the total; the
        load-more flag is cleared in every case. */
    method Complete(call: ApiCall, resp: Response) returns (result: FetchResult)
      requires Valid()
      modifies this`currentRecipes, this`totalRecipes, this`grid, this`isLoadingMore
      ensures Valid()
      ensures result == ResultOf(call, resp)
      ensures isLoadingMore == (if call.isLoadMore then false else old(isLoadingMore))
      ensures IsListingResponse(call, resp) ==>
        currentRecipes == RecipesField(resp.body)
        && grid == DisplayedGrid(old(grid), currentPage, RecipesField(resp.body))
        && totalRecipes == (if currentPage == 1 && IsEmptyPage(RecipesField(resp.body)) then Some(0)
                            else ReportedTotal(call, resp.body))
      ensures FailsOn(call, resp) && !call.isSingleRecipe && call.verb == GET ==>
        grid == [LoadError] && totalRecipes == Some(0) && currentRecipes == old(currentRecipes)
      ensures !IsListingResponse(call, resp) && !(FailsOn(call, resp) && !call.isSingleRecipe && call.verb == GET) ==>
        grid == old(grid) && totalRecipes == old(totalRecipes) && currentRecipes == old(currentRecipes)
    {
      if call.verb == DELETE {
        match resp
        case Failed => result := Null;
        case NoContent => result := DeletedNoContent(call.endpoint);
        case Ok(body) => result := Deleted(body);
      } else if !resp.Ok? {
        result := Null;
        if !call.isSingleRecipe && call.verb == GET {
          grid := [LoadError];
          totalRecipes := Some(0);
        }
      } else if ReturnsData(call) {
        result := Data(resp.body);
      } else {
        var body := resp.body;
        currentRecipes := RecipesField(body);
        totalRecipes := TotalField(body);
        if (call.isFilter || call.isSearch) && TotalField(body).None? {
          totalRecipes := Some(|RecipesField(body).GetOr([])|);
        }
        DisplayRecipes(currentRecipes);
        result := Undefined;
      }
      if call.isLoadMore {
        isLoadingMore := false;
      }
    }

    /** `fetchAllRecipes(isLoadMore)` with the selected sort; returns the request it issued. */
    method FetchAllRecipes(isLoadMore: bool, sortBy: string, order: string) returns (pending: Option<ApiCall>)
      requires Valid()
      modifies this`currentPage, this`isLoadingMore, this`grid, this`currentApiCallType, this`currentApiQuery
      ensures Valid()
      ensures !isLoadMore ==>
        pending == Some(AllRecipesCall(0, sortBy, order, false)) && currentPage == 1 && grid == []
        && currentApiCallType == All && currentApiQuery == None && isLoadingMore == old(isLoadingMore)
      ensures isLoadMore ==>
        currentPage == old(currentPage) && currentApiCallType == old(currentApiCallType)
        && currentApiQuery == old(currentApiQuery)
      ensures isLoadMore && NoMoreToFetch(old(currentPage) * RECIPES_PER_PAGE, totalRecipes) ==>
        pending == None && grid == old(grid) + [NoMore] && !isLoadingMore
      ensures isLoadMore && !NoMoreToFetch(old(currentPage) * RECIPES_PER_PAGE, totalRecipes) ==>
        grid == old(grid) && isLoadingMore
        && (pending.Some? <==> !old(isLoadingMore))
        && (pending.Some? ==> pending.value == AllRecipesCall(old(currentPage) * RECIPES_PER_PAGE, sortBy, order, true))
    {
      var skip := if isLoadMore then currentPage * RECIPES_PER_PAGE else 0;
      if isLoadMore && NoMoreToFetch(skip, totalRecipes) {
        grid := grid + [NoMore];
        isLoadingMore := false;
        return None;
      }
      if !isLoadMore {
        currentPage := 1;
        currentApiCallType := All;
        currentApiQuery := None;
      }
      var call := AllRecipesCall(skip, sortBy, order, isLoadMore);
      var issued := Begin(call);
      pending := if issued then Some(call) else None;
    }

    /** `handleSortChange`: always back to every recipe, page 1, with the new sort. */
    method HandleSortChange(sortBy: string, order: string) returns (pending: Option<ApiCall>)
      requires Valid()
      modifies this`currentPage, this`isLoadingMore, this`grid, this`currentApiCallType, this`currentApiQuery
      ensures Valid()
      ensures pending == Some(AllRecipesCall(0, sortBy, order, false))
      ensures currentPage == 1 && grid == [] && currentApiCallType == All && currentApiQuery == None
      ensures isLoadingMore == old(isLoadingMore)
    {
      pending := FetchAllRecipes(false, sortBy, order);
    }

    /** `handleTagFilterClick` for the item's `data-tag`; the empty tag is "All Tags". */
    method HandleTagFilterClick(tag: string) returns (pending: ApiCall)
      requires Valid()
      modifies this`currentPage, this`isLoadingMore, this`grid, this`currentApiCallType, this`currentApiQuery
      ensures Valid()
      ensures pending == TagFilterCall(tag)
      ensures currentApiCallType == (if tag != "" then Tag else All) && currentApiQuery == Some(tag)
      ensures currentPage == 1 && grid == [] && isLoadingMore == old(isLoadingMore)
    {
      currentApiCallType := if tag != "" then Tag else All;
      currentApiQuery := Some(tag);
      currentPage := 1;
      pending := TagFilterCall(tag);
      HandlerCallsAreListings(tag, "", 0, "", "", All, None);
      var issued := Begin(pending);
    }

    /** `handleMealTypeFilterClick` for the item's `data-mealtype`. */
    method HandleMealTypeFilterClick(mealType: string) returns (pending: ApiCall)
      requires Valid()
      modifies this`currentPage, this`isLoadingMore, this`grid, this`currentApiCallType, this`currentApiQuery
      ensures Valid()
      ensures pending == MealTypeFilterCall(mealType)
      ensures currentApiCallType == (if mealType != "" then MealType else All) && currentApiQuery == Some(mealType)
      ensures currentPage == 1 && grid == [] && isLoadingMore == old(isLoadingMore)
    {
      currentApiCallType := if mealType != "" then MealType else All;
      currentApiQuery := Some(mealType);
      currentPage := 1;
      pending := MealTypeFilterCall(mealType);
      HandlerCallsAreListings(mealType, "", 0, "", "", All, None);
      var issued := Begin(pending);
    }

    /** The search form's submit handler for the input's value: the value is trimmed first. */
    method HandleSearchSubmit(input: string, sortBy: string, order: string) returns (pending: ApiCall)
      requires Valid()
      modifies this`currentPage, this`isLoadingMore, this`grid, this`currentApiCallType, this`currentApiQuery
      ensures Valid()
      ensures Trim(input) != "" ==>
        pending == SearchCall(Trim(input)) && currentApiCallType == Search && currentApiQuery == Some(Trim(input))
      ensures Trim(input) == "" ==>
        pending == AllRecipesCall(0, sortBy, order, false) && currentApiCallType == All && currentApiQuery == None
      ensures currentPage == 1 && grid == [] && isLoadingMore == old(isLoadingMore)
    {
      pending := SubmitSearchTerm(Trim(input), sortBy, order);
    }

    /** The rest of the submit handler, for the trimmed term: an empty term falls back to every
        recipe. */
    method SubmitSearchTerm(term: string, sortBy: string, order: string) returns (pending: ApiCall)
      requires Valid()
      modifies this`currentPage, this`isLoadingMore, this`grid, this`currentApiCallType, this`currentApiQuery
      ensures Valid()
      ensures term != "" ==>
        pending == SearchCall(term) && currentApiCallType == Search && currentApiQuery == Some(term)
      ensures term == "" ==>
        pending == AllRecipesCall(0, sortBy, order, false) && currentApiCallType == All && currentApiQuery == None
      ensures currentPage == 1 && grid == [] && isLoadingMore == old(isLoadingMore)
    {
      currentApiCallType := if term != "" then Search else All;
      currentApiQuery := Some(term);
      currentPage := 1;
      if term != "" {
        pending := SearchCall(term);
        var issued := Begin(pending);
      } else {
        var all := FetchAllRecipes(false, sortBy, order);
        pending := all.value;
      }
    }

    /** `handleScroll`; `nearBottom` is the geometry test. When it fires it advances the page and
        requests the next page of the current mode. */
    method HandleScroll(nearBottom: bool, sortBy: string, order: string) returns (pending: Option<ApiCall>)
      requires Valid()
      modifies this`currentPage, this`isLoadingMore, this`grid
      ensures Valid()
      ensures grid == old(grid)
      ensures pending.Some? <==> ScrollFires(nearBottom, old(isLoadingMore), old(currentPage), totalRecipes, old(grid))
      ensures pending.Some? ==>
        currentPage == old(currentPage) + 1 && isLoadingMore
        && pending.value == ScrollCall(currentApiCallType, currentApiQuery, old(currentPage) * RECIPES_PER_PAGE, sortBy, order)
      ensures pending.None? ==> currentPage == old(currentPage) && isLoadingMore == old(isLoadingMore)
    {
      if ScrollFires(nearBottom, isLoadingMore, currentPage, totalRecipes, grid) {
        currentPage := currentPage + 1;
        var call := ScrollCall(currentApiCallType, currentApiQuery, (currentPage - 1) * RECIPES_PER_PAGE, sortBy, order);
        var issued := Begin(call);
        pending := Some(call);
      } else {
        pending := None;
      }
    }

    /** `handleEditRecipeClick`: fetches the recipe and fills the form from it. */
    method HandleEditRecipeClick(recipeId: Option<int>, resp: Response) returns (form: Option<FormFields>)
      requires Valid()
      modifies this`currentPage, this`isLoadingMore, this`grid, this`currentRecipes, this`totalRecipes
      ensures Valid()
      ensures form == (if recipeId.Some? && resp.Ok? && resp.body.RecipeBody? then Some(EditForm(resp.body.recipe)) else None)
      ensures currentPage == old(currentPage) && isLoadingMore == old(isLoadingMore) && grid == old(grid)
      ensures currentRecipes == old(currentRecipes) && totalRecipes == old(totalRecipes)
    {
      form := None;
      if recipeId.None? {
        return;
      }
      var call := RecipeCall(recipeId.value);
      var issued := Begin(call);
      var result := Complete(call, resp);
      if result.Data? && result.body.RecipeBody? {
        form := Some(EditForm(result.body.recipe));
      }
    }

    /** The write of `handleAddEditRecipeSubmit` for a valid form: PUT or POST, then on a truthy
        `id` a reload of every recipe. */
    method SaveRecipe(form: FormFields, resp: Response, sortBy: string, order: string)
      returns (write: ApiCall, pending: Option<ApiCall>)
      requires Valid()
      modifies this`currentPage, this`isLoadingMore, this`grid, this`currentRecipes, this`totalRecipes,
               this`currentApiCallType, this`currentApiQuery
      ensures Valid()
      ensures write == SaveCall(form.recipeId, IsEditMode(form))
      ensures currentRecipes == old(currentRecipes) && totalRecipes == old(totalRecipes)
      ensures isLoadingMore == old(isLoadingMore)
      ensures SaveSucceeded(ResultOf(write, resp)) ==>
        pending == Some(AllRecipesCall(0, sortBy, order, false)) && currentPage == 1 && grid == []
        && currentApiCallType == All && currentApiQuery == None
      ensures !SaveSucceeded(ResultOf(write, resp)) ==>
        pending == None && currentPage == old(currentPage) && grid == old(grid)
        && currentApiCallType == old(currentApiCallType) && currentApiQuery == old(currentApiQuery)
    {
      write := SaveCall(form.recipeId, IsEditMode(form));
      var issued := Begin(write);
      var result := Complete(write, resp);
      pending := None;
      if SaveSucceeded(result) {
        pending := FetchAllRecipes(false, sortBy, order);
      }
    }

    /** `handleAddEditRecipeSubmit`: a form that fails validation sends nothing; otherwise the
        payload is built and written. Returns the write request, its payload and the reload. */
    method HandleAddEditRecipeSubmit(form: FormFields, formValid: bool, resp: Response, sortBy: string, order: string)
      returns (write: Option<ApiCall>, sent: Option<RecipeData>, pending: Option<ApiCall>)
      requires Valid()
      modifies this`currentPage, this`isLoadingMore, this`grid, this`currentRecipes, this`totalRecipes,
               this`currentApiCallType, this`currentApiQuery
      ensures Valid()
      ensures sent == (if formValid then Some(Payload(form)) else None)
      ensures write == (if formValid then Some(SaveCall(form.recipeId, IsEditMode(form))) else None)
      ensures currentRecipes == old(currentRecipes) && totalRecipes == old(totalRecipes)
      ensures isLoadingMore == old(isLoadingMore)
      ensures formValid && SaveSucceeded(ResultOf(write.value, resp)) ==>
        pending == Some(AllRecipesCall(0, sortBy, order, false)) && currentPage == 1 && grid == []
        && currentApiCallType == All && currentApiQuery == None
      ensures !(formValid && SaveSucceeded(ResultOf(write.value, resp))) ==>
        pending == None && currentPage == old(currentPage) && grid == old(grid)
        && currentApiCallType == old(currentApiCallType) && currentApiQuery == old(currentApiQuery)
    {
      sent := PreparePayload(form, formValid);
      write, pending := None, None;
      if formValid {
        var call;
        call, pending := SaveRecipe(form, resp, sortBy, order);
        write := Some(call);
      }
    }

    /** `handleDeleteRecipeClick`: after confirmation, deletes the recipe and, when the API
        reports it deleted, removes its cards and lowers the total; a grid left without any
        child but the marker is redisplayed as an empty page. */
    method HandleDeleteRecipeClick(recipeId: Option<int>, confirmed: bool, resp: Response) returns (deleted: bool)
      requires Valid()
      modifies this`currentPage, this`isLoadingMore, this`grid, this`currentRecipes, this`totalRecipes
      ensures Valid()
      ensures deleted <==> recipeId.Some? && confirmed && !resp.Failed?
      ensures currentPage == old(currentPage) && isLoadingMore == old(isLoadingMore)
      ensures currentRecipes == old(currentRecipes)
      ensures !deleted ==> grid == old(grid) && totalRecipes == old(totalRecipes)
      ensures deleted && HasNonMarker(RemoveCards(old(grid), recipeId.value)) ==>
        grid == RemoveCards(old(grid), recipeId.value) && totalRecipes == Decrement(old(totalRecipes))
      ensures deleted && !HasNonMarker(RemoveCards(old(grid), recipeId.value)) ==>
        grid == DisplayedGrid(RemoveCards(old(grid), recipeId.value), currentPage, Some([]))
        && totalRecipes == (if currentPage == 1 then Some(0) else Decrement(old(totalRecipes)))
    {
      deleted := false;
      if recipeId.None? || !confirmed {
        return;
      }
      var call := DeleteCall(recipeId.value);
      var issued := Begin(call);
      var result := Complete(call, resp);
      if result.Deleted? || result.DeletedNoContent? {
        deleted := true;
        grid := RemoveCards(grid, recipeId.value);
        totalRecipes := Decrement(totalRecipes);
        if !HasNonMarker(grid) {
          DisplayRecipes(Some([]));
        }
      }
    }
  }

  lemma CardsHaveNoMarker(rs: seq<Recipe>)
    ensures NoMore !in Cards(rs)
  {
  }

  /** The initial load: a fresh page of recipes with the total the response reports. */
  method LoadFirstPage(page: seq<Recipe>, total: int, sortBy: string, order: string) returns (b: RecipeBrowser)
    requires |page| > 0
    ensures fresh(b) && b.Valid()
    ensures b.grid == Cards(page) && b.totalRecipes == Some(total) && b.currentPage == 1
    ensures !b.isLoadingMore && b.currentApiCallType == All
  {
    b := new RecipeBrowser();
    var first := b.FetchAllRecipes(false, sortBy, order);
    var r := b.Complete(first.value, Ok(ListingBody(Some(page), Some(total))));
  }

  /** Infinite scroll over a listing of 45: the first page shows its 30 recipes, one scroll
      requests the page at skip 30 (a second scroll meanwhile requests nothing), the 15 that
      arrive are appended after them, and the next scroll fires no request because 60 is not
      below 45. */
  method LoadMoreScenario(firstPage: seq<Recipe>, secondPage: seq<Recipe>, sortBy: string, order: string)
    returns (shown: seq<Cell>, second: ApiCall, more: bool)
    requires |firstPage| == 30 && |secondPage| == 15
    ensures shown == Cards(firstPage + secondPage) && |shown| == 45
    ensures second == ScrollCall(All, None, 30, sortBy, order)
    ensures !more
  {
    var b := LoadFirstPage(firstPage, 45, sortBy, order);
    CardsHaveNoMarker(firstPage);
    assert ScrollFires(true, b.isLoadingMore, b.currentPage, b.totalRecipes, b.grid);
    var next := b.HandleScroll(true, sortBy, order);
    assert next.Some? && b.currentPage == 2 && b.isLoadingMore;
    var overlapping := b.HandleScroll(true, sortBy, order);
    assert overlapping.None?;
    second := next.value;

    var r := b.Complete(next.value, Ok(ListingBody(Some(secondPage), Some(45))));
    ScrolledPagesConcatenate(firstPage, 2, secondPage);
    shown := b.grid;

    var last := b.HandleScroll(true, sortBy, order);
    more := last.Some?;
  }

  /** A tag filter whose response has no `total`: the total becomes the 12 recipes returned,
      and scrolling requests nothing more because 30 is not below 12. */
  method FilterWithoutTotalScenario(tag: string, page: seq<Recipe>, sortBy: string, order: string)
    returns (total: Option<int>, shown: seq<Cell>, more: bool)
    requires tag != "" && |page| == 12
    ensures total == Some(12) && shown == Cards(page)
    ensures !more
  {
    var b := new RecipeBrowser();
    var request := b.HandleTagFilterClick(tag);
    var r := b.Complete(request, Ok(ListingBody(Some(page), None)));
    total, shown := b.totalRecipes, b.grid;
    var next := b.HandleScroll(true, sortBy, order);
    more := next.Some?;
  }
}

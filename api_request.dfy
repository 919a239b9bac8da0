/** The requests the script sends and the responses it receives: the arguments of
    `fetchFromAPI`, the URL it builds from them, and the calls each handler makes. */
module ApiRequest {
  import opened Wrappers
  import opened JsText
  import opened Recipes

  const API_BASE_URL: string := "https://dummyjson.com/recipes"
  const RECIPES_PER_PAGE: nat := 30

  datatype HttpMethod = GET | POST | PUT | DELETE

  /** One own property of the `queryParams` object, in insertion order; numbers are held as the
      strings they render to. */
  datatype Param = Param(key: string, value: string)

  /** The arguments of one `fetchFromAPI` call, apart from the request body. */
  datatype ApiCall = ApiCall(
    endpoint: string,
    params: seq<Param>,
    verb: HttpMethod,
    isSearch: bool,
    isSingleRecipe: bool,
    isFilter: bool,
    isLoadMore: bool)

  /** The values of `currentApiCallType`: 'all', 'search', 'tag', 'mealType'. */
  datatype CallType = All | Search | Tag | MealType

  /** `encodeURIComponent` and `URLSearchParams(...).toString()`, left uninterpreted. */
  datatype UrlCodec = UrlCodec(encodeComponent: string -> string, serialize: seq<Param> -> string)

  /** `queryParams.key` inside a template literal: the value, or `"undefined"` when missing. */
  function Lookup(params: seq<Param>, key: string): string
  {
    if params == [] then "undefined"
    else if params[0].key == key then params[0].value
    else Lookup(params[1..], key)
  }

  predicate StartsWith(s: string, prefix: string)
  {
    |prefix| <= |s| && s[..|prefix|] == prefix
  }

  /** The test at the top of `fetchFromAPI` for a fresh listing: a GET that is not a single
      recipe, to the base endpoint, a `tag/` or `meal-type/` endpoint, or a search. */
  predicate IsListingGet(call: ApiCall)
  {
    !call.isSingleRecipe && call.verb == GET
    && (call.endpoint == API_BASE_URL || StartsWith(call.endpoint, "tag/")
        || StartsWith(call.endpoint, "meal-type/") || call.isSearch)
  }

  /** Which branch of the URL choice a call takes; earlier branches win. */
  datatype UrlShape = DirectUrl | AddUrl | SearchUrl | FilterUrl | ListingUrl

  function ShapeOf(call: ApiCall): (shape: UrlShape)
    ensures shape == DirectUrl <==> call.isSingleRecipe || call.verb == PUT || call.verb == DELETE
    ensures shape == ListingUrl ==> !call.isSearch && !call.isFilter
  {
    if call.isSingleRecipe || call.verb == PUT || call.verb == DELETE then DirectUrl
    else if call.verb == POST && call.endpoint == "add" then AddUrl
    else if call.isSearch then SearchUrl
    else if call.isFilter then FilterUrl
    else ListingUrl
  }

  /** The URL `fetchFromAPI` requests. */
  function RequestUrl(codec: UrlCodec, call: ApiCall): string
  {
    match ShapeOf(call)
    case DirectUrl => API_BASE_URL + "/" + call.endpoint
    case AddUrl => API_BASE_URL + "/add"
    case SearchUrl =>
      API_BASE_URL + "/search?q=" + codec.encodeComponent(Lookup(call.params, "q"))
      + "&limit=" + Lookup(call.params, "limit") + "&skip=" + Lookup(call.params, "skip")
    case FilterUrl =>
      API_BASE_URL + "/" + call.endpoint + "?limit=" + Lookup(call.params, "limit")
      + "&skip=" + Lookup(call.params, "skip")
    case ListingUrl => API_BASE_URL + "?" + codec.serialize(call.params)
  }

  /** A search URL reads only `q`, `limit` and `skip`: calls that agree on those get the same URL,
      whatever else their parameters hold. */
  lemma SearchUrlReadsOnlyQLimitSkip(codec: UrlCodec, a: ApiCall, b: ApiCall)
    requires ShapeOf(a) == SearchUrl && ShapeOf(b) == SearchUrl
    requires Lookup(a.params, "q") == Lookup(b.params, "q")
    requires Lookup(a.params, "limit") == Lookup(b.params, "limit")
    requires Lookup(a.params, "skip") == Lookup(b.params, "skip")
    ensures RequestUrl(codec, a) == RequestUrl(codec, b)
  {
  }

  /** A filter URL reads only the endpoint, `limit` and `skip`. */
  lemma FilterUrlReadsOnlyLimitSkip(codec: UrlCodec, a: ApiCall, b: ApiCall)
    requires ShapeOf(a) == FilterUrl && ShapeOf(b) == FilterUrl && a.endpoint == b.endpoint
    requires Lookup(a.params, "limit") == Lookup(b.params, "limit")
    requires Lookup(a.params, "skip") == Lookup(b.params, "skip")
    ensures RequestUrl(codec, a) == RequestUrl(codec, b)
  {
  }

  /** Single-recipe, PUT and DELETE requests go to `<base>/<endpoint>` with no query. */
  lemma DirectUrlIsEndpoint(codec: UrlCodec, call: ApiCall)
    requires call.isSingleRecipe || call.verb == PUT || call.verb == DELETE
    ensures RequestUrl(codec, call) == API_BASE_URL + "/" + call.endpoint
  {
  }

  ghost predicate Injective(codec: UrlCodec)
  {
    forall p, q :: codec.serialize(p) == codec.serialize(q) ==> p == q
  }

  /** Only the plain listing path serialises every query parameter: with a serialisation that
      tells parameter lists apart, two listing calls get the same URL exactly when their
      parameters are the same. */
  lemma ListingUrlCarriesEveryParam(codec: UrlCodec, a: ApiCall, b: ApiCall)
    requires Injective(codec)
    requires ShapeOf(a) == ListingUrl && ShapeOf(b) == ListingUrl
    ensures RequestUrl(codec, a) == RequestUrl(codec, b) <==> a.params == b.params
  {
    var prefix := API_BASE_URL + "?";
    if RequestUrl(codec, a) == RequestUrl(codec, b) {
      assert codec.serialize(a.params) == (prefix + codec.serialize(a.params))[|prefix|..];
      assert codec.serialize(b.params) == (prefix + codec.serialize(b.params))[|prefix|..];
    }
  }

  // ---------------------------------------------------------------------------
  // The calls each handler makes
  // ---------------------------------------------------------------------------

  /** `{ limit: RECIPES_PER_PAGE, skip: skip }` */
  function PageParams(skip: int): seq<Param>
  {
    [Param("limit", IntToString(RECIPES_PER_PAGE)), Param("skip", IntToString(skip))]
  }

  /** `{ limit, skip, sortBy: sortBySelect.val(), order: sortOrderSelect.val() }` */
  function SortedPageParams(skip: int, sortBy: string, order: string): seq<Param>
  {
    PageParams(skip) + [Param("sortBy", sortBy), Param("order", order)]
  }

  /** `fetchAllRecipes`' request. */
  function AllRecipesCall(skip: int, sortBy: string, order: string, isLoadMore: bool): ApiCall
  {
    ApiCall(API_BASE_URL, SortedPageParams(skip, sortBy, order), GET, false, false, false, isLoadMore)
  }

  /** `handleTagFilterClick`'s request; the empty tag ("All Tags") asks for the base listing. */
  function TagFilterCall(tag: string): (call: ApiCall)
    ensures call.isFilter <==> tag != ""
    ensures tag != "" ==> call.endpoint == "tag/" + tag
    ensures call.verb == GET && !call.isLoadMore && !call.isSearch && call.params == PageParams(0)
  {
    ApiCall(if tag != "" then "tag/" + tag else API_BASE_URL, PageParams(0), GET, false, false, tag != "", false)
  }

  /** `handleMealTypeFilterClick`'s request. */
  function MealTypeFilterCall(mealType: string): (call: ApiCall)
    ensures call.isFilter <==> mealType != ""
    ensures mealType != "" ==> call.endpoint == "meal-type/" + mealType
    ensures call.verb == GET && !call.isLoadMore && !call.isSearch && call.params == PageParams(0)
  {
    ApiCall(if mealType != "" then "meal-type/" + mealType else API_BASE_URL, PageParams(0), GET,
      false, false, mealType != "", false)
  }

  /** The search submit handler's request for a non-empty term. */
  function SearchCall(term: string): ApiCall
  {
    ApiCall(API_BASE_URL + "/search", [Param("q", term)] + PageParams(0), GET, true, false, false, false)
  }

  /** A JavaScript truthiness test on `currentApiQuery`: neither null nor empty. */
  predicate IsTruthy(query: Option<string>)
  {
    query.Some? && query.value != ""
  }

  /** `handleScroll`'s request for the next page of the current mode. The sort parameters are
      always put in `queryParams`; `q` is added last for a search. */
  function ScrollCall(callType: CallType, query: Option<string>, skip: int, sortBy: string, order: string): (call: ApiCall)
    ensures call.isLoadMore && call.verb == GET && !call.isSingleRecipe
    ensures call.isSearch <==> callType == Search && IsTruthy(query)
    ensures call.isFilter <==> (callType == Tag || callType == MealType) && IsTruthy(query)
    ensures |call.params| >= 4 && call.params[..4] == SortedPageParams(skip, sortBy, order)
  {
    var params := SortedPageParams(skip, sortBy, order);
    if callType == Search && IsTruthy(query) then
      ApiCall(API_BASE_URL + "/search", params + [Param("q", query.value)], GET, true, false, false, true)
    else if callType == Tag && IsTruthy(query) then
      ApiCall("tag/" + query.value, params, GET, false, false, true, true)
    else if callType == MealType && IsTruthy(query) then
      ApiCall("meal-type/" + query.value, params, GET, false, false, true, true)
    else
      ApiCall(API_BASE_URL, params, GET, false, false, false, true)
  }

  /** The single-recipe GET of the detail and edit views. */
  function RecipeCall(id: int): (call: ApiCall)
    ensures call.endpoint == IntToString(id)
    ensures call.verb == GET && call.isSingleRecipe && !call.isLoadMore
  {
    ApiCall(IntToString(id), [], GET, false, true, false, false)
  }

  /** The delete handler's request. */
  function DeleteCall(id: int): (call: ApiCall)
    ensures call.endpoint == IntToString(id)
    ensures call.verb == DELETE && call.isSingleRecipe && !call.isLoadMore
  {
    ApiCall(IntToString(id), [], DELETE, false, true, false, false)
  }

  /** The single-recipe and delete requests go to the recipe's own id: the endpoint reads back
      as that id. */
  lemma RecipeEndpointIsId(id: int)
    ensures ParseInt(RecipeCall(id).endpoint) == Some(id) && ParseInt(DeleteCall(id).endpoint) == Some(id)
  {
    ParseIntRoundTrip(id);
  }

  /** The form submit's write: PUT to the recipe's id when editing, POST to `add` otherwise. */
  function SaveCall(recipeId: string, isEditMode: bool): (call: ApiCall)
    ensures call.verb == (if isEditMode then PUT else POST) && !call.isLoadMore
    ensures isEditMode ==> call.endpoint == recipeId
  {
    if isEditMode then ApiCall(recipeId, [], PUT, false, true, false, false)
    else ApiCall("add", [], POST, false, false, false, false)
  }

  /** Where `limit`, `skip` and `q` sit in a list shaped like the scroll parameters. */
  lemma ParamLookups(limit: string, skip: string, sortBy: string, order: string, extra: seq<Param>)
    ensures var p := [Param("limit", limit), Param("skip", skip), Param("sortBy", sortBy), Param("order", order)] + extra;
      Lookup(p, "limit") == limit && Lookup(p, "skip") == skip
      && (|extra| > 0 && extra[0].key == "q" ==> Lookup(p, "q") == extra[0].value)
  {
    var p := [Param("limit", limit), Param("skip", skip), Param("sortBy", sortBy), Param("order", order)] + extra;
    assert p[1..][1..][1..][1..] == extra;
    if |extra| > 0 && extra[0].key == "q" {
      assert "limit" != "q" && "skip" != "q" && "sortBy" != "q" && "order" != "q";
      assert Lookup(p, "q") == Lookup(p[1..], "q") == Lookup(p[1..][1..], "q")
          == Lookup(p[1..][1..][1..], "q") == Lookup(extra, "q");
    }
  }

  lemma ScrollParamLookups(skip: int, sortBy: string, order: string, extra: seq<Param>)
    ensures Lookup(SortedPageParams(skip, sortBy, order) + extra, "limit") == IntToString(RECIPES_PER_PAGE)
    ensures Lookup(SortedPageParams(skip, sortBy, order) + extra, "skip") == IntToString(skip)
    ensures |extra| > 0 && extra[0].key == "q" ==> Lookup(SortedPageParams(skip, sortBy, order) + extra, "q") == extra[0].value
  {
    var limit, skipText := IntToString(RECIPES_PER_PAGE), IntToString(skip);
    assert SortedPageParams(skip, sortBy, order)
        == [Param("limit", limit), Param("skip", skipText), Param("sortBy", sortBy), Param("order", order)];
    ParamLookups(limit, skipText, sortBy, order, extra);
  }

  lemma RenderedPageSize()
    ensures IntToString(RECIPES_PER_PAGE) == "30" && IntToString(0) == "0"
  {
    assert NatToDigits(3) == "3";
    assert NatToDigits(30) == NatToDigits(3) + [DigitChar(0)];
  }

  /** Every handler's listing request counts as a fresh listing or as a load-more, so each one
      goes through the page reset or the load-more guard. */
  lemma HandlerCallsAreListings(tag: string, term: string, skip: int, sortBy: string, order: string,
                                callType: CallType, query: Option<string>)
    ensures IsListingGet(TagFilterCall(tag)) && IsListingGet(MealTypeFilterCall(tag))
    ensures IsListingGet(SearchCall(term)) && IsListingGet(AllRecipesCall(skip, sortBy, order, false))
    ensures ScrollCall(callType, query, skip, sortBy, order).isLoadMore
  {
    assert StartsWith("tag/" + tag, "tag/") by { assert ("tag/" + tag)[..4] == "tag/"; }
    assert StartsWith("meal-type/" + tag, "meal-type/") by { assert ("meal-type/" + tag)[..10] == "meal-type/"; }
  }

  /** The single-recipe and delete requests are neither fresh listings nor load-mores, so they
      leave the page and the flag alone. */
  lemma RecordCallsAreNotListings(id: int)
    ensures !IsListingGet(RecipeCall(id)) && !RecipeCall(id).isLoadMore
    ensures !IsListingGet(DeleteCall(id)) && !DeleteCall(id).isLoadMore
  {
  }

  /** A tag or meal-type page reached by scrolling carries `limit` and `skip` and nothing else. */
  lemma ScrollFilterUrl(codec: UrlCodec, callType: CallType, query: Option<string>, skip: int,
                        sortBy: string, order: string)
    requires callType == Tag || callType == MealType
    requires IsTruthy(query)
    ensures RequestUrl(codec, ScrollCall(callType, query, skip, sortBy, order))
         == API_BASE_URL + "/" + (if callType == Tag then "tag/" else "meal-type/") + query.value
            + "?limit=30&skip=" + IntToString(skip)
  {
    RenderedPageSize();
    ScrollParamLookups(skip, sortBy, order, []);
    assert SortedPageParams(skip, sortBy, order) + [] == SortedPageParams(skip, sortBy, order);
  }

  /** The selected sort does not change the URL of a scrolled tag or meal-type page. */
  lemma ScrollFilterUrlIgnoresSort(codec: UrlCodec, callType: CallType, query: Option<string>, skip: int,
                                   sortBy1: string, order1: string, sortBy2: string, order2: string)
    requires callType == Tag || callType == MealType
    requires IsTruthy(query)
    ensures RequestUrl(codec, ScrollCall(callType, query, skip, sortBy1, order1))
         == RequestUrl(codec, ScrollCall(callType, query, skip, sortBy2, order2))
  {
    ScrollFilterUrl(codec, callType, query, skip, sortBy1, order1);
    ScrollFilterUrl(codec, callType, query, skip, sortBy2, order2);
  }

  /** A search page reached by scrolling carries `q`, `limit` and `skip` and nothing else. */
  lemma ScrollSearchUrl(codec: UrlCodec, query: Option<string>, skip: int, sortBy: string, order: string)
    requires IsTruthy(query)
    ensures RequestUrl(codec, ScrollCall(Search, query, skip, sortBy, order))
         == API_BASE_URL + "/search?q=" + codec.encodeComponent(query.value) + "&limit=30&skip=" + IntToString(skip)
  {
    RenderedPageSize();
    ScrollParamLookups(skip, sortBy, order, [Param("q", query.value)]);
  }

  /** In mode 'all', or in a mode whose query is empty, scrolling requests the plain listing with
      every parameter serialised, the sort included. */
  lemma ScrollListingUrl(codec: UrlCodec, callType: CallType, query: Option<string>, skip: int, sortBy: string, order: string)
    requires callType == All || !IsTruthy(query)
    ensures RequestUrl(codec, ScrollCall(callType, query, skip, sortBy, order))
         == API_BASE_URL + "?" + codec.serialize(SortedPageParams(skip, sortBy, order))
  {
  }

  /** The skip a scroll request sends reads back as the number it was built from. */
  lemma ScrollSkipParam(callType: CallType, query: Option<string>, skip: int, sortBy: string, order: string)
    ensures ParseInt(Lookup(ScrollCall(callType, query, skip, sortBy, order).params, "skip")) == Some(skip)
  {
    ParseIntRoundTrip(skip);
    var extra := if callType == Search && IsTruthy(query) then [Param("q", query.value)] else [];
    ScrollParamLookups(skip, sortBy, order, extra);
    assert ScrollCall(callType, query, skip, sortBy, order).params == SortedPageParams(skip, sortBy, order) + extra;
  }

  /** The first page of a chosen tag or meal type is `<base>/tag/<tag>?limit=30&skip=0` (or
      `meal-type/`), without the sort parameters. */
  lemma FilterFirstPageUrl(codec: UrlCodec, value: string)
    requires value != ""
    ensures RequestUrl(codec, TagFilterCall(value)) == API_BASE_URL + "/" + "tag/" + value + "?limit=30&skip=0"
    ensures RequestUrl(codec, MealTypeFilterCall(value)) == API_BASE_URL + "/" + "meal-type/" + value + "?limit=30&skip=0"
  {
    FirstPageLookups();
  }

  /** The page-1 parameters render `limit` as "30" and `skip` as "0". */
  lemma FirstPageLookups()
    ensures Lookup(PageParams(0), "limit") == "30" && Lookup(PageParams(0), "skip") == "0"
  {
    RenderedPageSize();
    assert PageParams(0)[1..] == [Param("skip", "0")];
  }

  /** Choosing "All Tags" or "All Meal Types" requests the base listing through the plain path
      with `limit` and `skip` only: that request carries no sort. */
  lemma ClearedFilterUrl(codec: UrlCodec)
    ensures RequestUrl(codec, TagFilterCall("")) == API_BASE_URL + "?" + codec.serialize(PageParams(0))
    ensures RequestUrl(codec, MealTypeFilterCall("")) == API_BASE_URL + "?" + codec.serialize(PageParams(0))
  {
  }

  // ---------------------------------------------------------------------------
  // Responses
  // ---------------------------------------------------------------------------

  /** The JSON bodies the script reads: a listing envelope (`recipes` and `total` may be missing),
      a single recipe, or the body of a deletion. */
  datatype Body =
    | ListingBody(recipes: Option<seq<Recipe>>, total: Option<int>)
    | RecipeBody(recipe: Recipe)
    | DeletionBody(id: Option<int>, name: Option<string>)

  /** What `fetch` and `response.json()` produce: a failure (network error, status outside
      200-299, or a body that is not JSON), an empty 204, or a decoded body. */
  datatype Response = Failed | NoContent | Ok(body: Body)

  /** What `fetchFromAPI` returns: `null` after an error, `undefined` after a listing, the data of
      a single-recipe GET, POST or PUT, or the deletion report. */
  datatype FetchResult =
    | Null
    | Undefined
    | Data(body: Body)
    | Deleted(body: Body)
    | DeletedNoContent(endpoint: string)

  /** `data.recipes` */
  function RecipesField(b: Body): Option<seq<Recipe>>
  {
    if b.ListingBody? then b.recipes else None
  }

  /** `data.total` */
  function TotalField(b: Body): Option<int>
  {
    if b.ListingBody? then b.total else None
  }

  /** `data.id` */
  function IdField(b: Body): Option<int>
  {
    match b
    case ListingBody(_, _) => None
    case RecipeBody(r) => Some(r.id)
    case DeletionBody(id, _) => id
  }

  /** The call goes to the `catch` block: a DELETE only fails outright, anything else also fails
      on a 204, whose empty body `response.json()` cannot decode. */
  predicate FailsOn(call: ApiCall, resp: Response)
  {
    if call.verb == DELETE then resp.Failed? else !resp.Ok?
  }

  /** A single-recipe GET, POST or PUT hands its data back instead of displaying it. */
  predicate ReturnsData(call: ApiCall)
  {
    call.isSingleRecipe || call.verb == POST || call.verb == PUT
  }

  /** The response of a listing request that reaches `currentRecipes` and the grid. */
  predicate IsListingResponse(call: ApiCall, resp: Response)
  {
    call.verb != DELETE && resp.Ok? && !ReturnsData(call)
  }

  /** The value `fetchFromAPI` returns for a call and its response. */
  function ResultOf(call: ApiCall, resp: Response): (r: FetchResult)
    ensures FailsOn(call, resp) <==> r == Null
    ensures r.Deleted? || r.DeletedNoContent? <==> call.verb == DELETE && !resp.Failed?
    ensures r.Data? <==> call.verb != DELETE && resp.Ok? && ReturnsData(call)
    ensures r.Undefined? <==> IsListingResponse(call, resp)
    ensures r.Data? || r.Deleted? ==> resp.Ok? && r.body == resp.body
    ensures r.DeletedNoContent? ==> resp.NoContent? && r.endpoint == call.endpoint
  {
    if call.verb == DELETE then
      match resp
      case Failed => Null
      case NoContent => DeletedNoContent(call.endpoint)
      case Ok(b) => Deleted(b)
    else
      match resp
      case Ok(b) => if ReturnsData(call) then Data(b) else Undefined
      case _ => Null
  }

  /** `totalRecipes` after a listing response: `data.total`, or for a filter or search response
      without one, the number of recipes returned (0 when `recipes` is missing too). */
  function ReportedTotal(call: ApiCall, b: Body): (total: Option<int>)
    ensures TotalField(b).Some? ==> total == TotalField(b)
    ensures TotalField(b).None? && (call.isFilter || call.isSearch) ==> total == Some(|RecipesField(b).GetOr([])|)
    ensures TotalField(b).None? && !call.isFilter && !call.isSearch ==> total.None?
  {
    if (call.isFilter || call.isSearch) && TotalField(b).None? then Some(|RecipesField(b).GetOr([])|)
    else TotalField(b)
  }
}

/** The filter menus loaded once at start-up (`populateFilterDropdowns`): the tag list, shown
    with capitalised labels, and the meal types collected from every recipe, de-duplicated and
    sorted. */
module FilterCatalog {
  import opened Wrappers
  import opened JsText
  import opened Recipes

  /** An entry of the `/recipes/tags` response: a plain value, or an object with a `name`. */
  datatype TagItem = TagText(text: string) | TagObject(name: string)

  datatype TagsResponse = TagsFailed | TagsOk(tags: seq<TagItem>)

  /** The `?limit=0` corpus response; `recipes` may be missing from its body. */
  datatype CorpusResponse = CorpusFailed | CorpusOk(recipes: Option<seq<Recipe>>)

  /** A menu entry: the value the click handler reads, and the text shown. */
  datatype FilterOption = FilterOption(value: string, text: string)

  /** `(typeof tag === "object" && tag.name) ? tag.name : String(tag)`: an object whose name is
      empty is rendered by `String` as `"[object Object]"`. */
  function TagLabel(t: TagItem): (s: string)
    ensures t.TagObject? && t.name != "" ==> s == t.name
    ensures t.TagText? ==> s == t.text
  {
    match t
    case TagText(text) => text
    case TagObject(n) => if n != "" then n else "[object Object]"
  }

  /** `tag.charAt(0).toUpperCase() + tag.slice(1).toLowerCase()` */
  function FormatTag(tag: string): (r: string)
    ensures |r| == |tag|
    ensures r != [] ==> r[0] == UpperChar(tag[0]) && !IsAsciiLower(r[0])
    ensures forall i :: 1 <= i < |r| ==> !IsAsciiUpper(r[i])
  {
    if tag == [] then [] else [UpperChar(tag[0])] + ToLowerCase(tag[1..])
  }

  /** The displayed text differs from the tag only in letter case. */
  lemma FormatTagSameLetters(tag: string)
    ensures ToLowerCase(FormatTag(tag)) == ToLowerCase(tag)
  {
    var r := FormatTag(tag);
    forall i | 0 <= i < |tag| ensures LowerChar(r[i]) == LowerChar(tag[i]) {
      if i > 0 {
        assert r[i] == LowerChar(tag[i]);
      }
    }
  }

  /** Formatting an already formatted tag changes nothing. */
  lemma FormatTagIdempotent(tag: string)
    ensures FormatTag(FormatTag(tag)) == FormatTag(tag)
  {
    var r := FormatTag(tag);
    if r != [] {
      var rr := FormatTag(r);
      forall i | 0 <= i < |r| ensures rr[i] == r[i] {
        if i > 0 {
          assert rr[i] == LowerChar(r[i]);
        }
      }
    }
  }

  /** The tag menu after the "All Tags" entry: one entry per tag, in response order. */
  function TagOptions(tags: seq<TagItem>): (opts: seq<FilterOption>)
    ensures |opts| == |tags|
    ensures forall i :: 0 <= i < |tags| ==>
      opts[i].value == TagLabel(tags[i]) && opts[i].text == FormatTag(TagLabel(tags[i]))
  {
    seq(|tags|, i requires 0 <= i < |tags| => FilterOption(TagLabel(tags[i]), FormatTag(TagLabel(tags[i]))))
  }

  /** The meal types a recipe lists; none when `mealType` is missing or not an array. */
  function MealTypesOf(r: Recipe): seq<string>
  {
    if r.mealType.Some? then r.mealType.value else []
  }

  /** The nested `forEach` that fills a `Set` with every recipe's meal types, then
      `Array.from(set).sort()`. The result has no duplicates, is ascending, and holds exactly the
      meal types that some recipe lists. */
  method CollectMealTypes(recipes: seq<Recipe>) returns (catalog: seq<string>)
    ensures StrictlySorted(catalog)
    ensures forall m :: m in catalog <==> exists k :: 0 <= k < |recipes| && m in MealTypesOf(recipes[k])
  {
    var seen: seq<string> := [];
    var i := 0;
    while i < |recipes|
      invariant 0 <= i <= |recipes|
      invariant Distinct(seen)
      invariant forall m :: m in seen <==> exists k :: 0 <= k < i && m in MealTypesOf(recipes[k])
    {
      var types := MealTypesOf(recipes[i]);
      var j := 0;
      while j < |types|
        invariant 0 <= j <= |types|
        invariant Distinct(seen)
        invariant forall m :: m in seen <==>
          (exists k :: 0 <= k < i && m in MealTypesOf(recipes[k])) || m in types[..j]
      {
        if types[j] !in seen {
          seen := seen + [types[j]];
        }
        assert types[..j + 1] == types[..j] + [types[j]];
        j := j + 1;
      }
      assert types[..j] == types;
      i := i + 1;
    }
    catalog := SortStrings(seen);
    SortStrictlySorted(seen);
    forall m ensures m in catalog <==> m in seen {
      assert m in catalog <==> m in multiset(catalog);
      assert m in seen <==> m in multiset(seen);
    }
  }

  /** The two menus after start-up. `None` is a menu the call leaves as it was: a failed tag
      fetch leaves both, a failed corpus fetch leaves only the meal-type menu, since the tag
      menu has already been rebuilt by then. The leading "All ..." entries, whose value is the
      empty string, are not listed. */
  method PopulateFilterDropdowns(tagsResp: TagsResponse, corpusResp: CorpusResponse)
    returns (tagMenu: Option<seq<FilterOption>>, mealMenu: Option<seq<string>>)
    ensures tagMenu == if tagsResp.TagsOk? then Some(TagOptions(tagsResp.tags)) else None
    ensures mealMenu.Some? <==> tagsResp.TagsOk? && corpusResp.CorpusOk?
    ensures mealMenu.Some? ==> StrictlySorted(mealMenu.value)
    ensures mealMenu.Some? ==> forall m :: m in mealMenu.value <==>
      exists k :: 0 <= k < |corpusResp.recipes.GetOr([])| && m in MealTypesOf(corpusResp.recipes.GetOr([])[k])
  {
    tagMenu, mealMenu := None, None;
    if tagsResp.TagsFailed? {
      return;
    }
    tagMenu := Some(TagOptions(tagsResp.tags));
    if corpusResp.CorpusFailed? {
      return;
    }
    var catalog := CollectMealTypes(corpusResp.recipes.GetOr([]));
    mealMenu := Some(catalog);
  }
}

/** The add/edit recipe form: turning its text fields into the payload sent to the API
    (`handleAddEditRecipeSubmit`) and filling it from a fetched recipe (`handleEditRecipeClick`). */
module RecipeForm {
  import opened Wrappers
  import opened JsText
  import opened Recipes

  const PLACEHOLDER_IMAGE: string := "https://dummyimage.com/600x400/ced4da/6c757d.jpg&text=No+Image"
  const DEFAULT_CUISINE: string := "Unknown"
  const DEFAULT_DIFFICULTY: string := "Medium"
  /** The user id the script attaches to every new recipe. */
  const NEW_RECIPE_USER_ID: int := 5

  /** The values of the form's inputs, each as the string `.val()` returns. */
  datatype FormFields = FormFields(
    recipeId: string,
    name: string,
    ingredients: string,
    instructions: string,
    image: string,
    prepTime: string,
    cookTime: string,
    cuisine: string,
    difficulty: string,
    tags: string,
    mealType: string)

  /** The payload the form submits. `userId` is only set for a new recipe. */
  datatype RecipeData = RecipeData(
    name: string,
    ingredients: seq<string>,
    instructions: seq<string>,
    image: string,
    prepTimeMinutes: int,
    cookTimeMinutes: int,
    cuisine: string,
    difficulty: string,
    tags: seq<string>,
    mealType: seq<string>,
    userId: Option<int>)

  /** An item a parsed list can hold: non-empty, trimmed, free of the separator. */
  predicate WellFormedItem(x: string, sep: char)
  {
    x != [] && Trimmed(x) && sep !in x
  }

  predicate WellFormedList(xs: seq<string>, sep: char)
  {
    forall i :: 0 <= i < |xs| ==> WellFormedItem(xs[i], sep)
  }

  /** `.map(item => item.trim())` */
  function TrimAll(pieces: seq<string>): (r: seq<string>)
    ensures |r| == |pieces|
    ensures forall i :: 0 <= i < |r| ==> r[i] == Trim(pieces[i])
  {
    if pieces == [] then [] else [Trim(pieces[0])] + TrimAll(pieces[1..])
  }

  /** `.filter(item => item)`: keeps the non-empty strings. */
  function DropEmpty(items: seq<string>): (r: seq<string>)
    ensures forall i :: 0 <= i < |r| ==> r[i] != [] && r[i] in items
    ensures forall x :: x in r <==> x in items && x != []
  {
    if items == [] then []
    else if items[0] == [] then DropEmpty(items[1..])
    else [items[0]] + DropEmpty(items[1..])
  }

  /** `s.split(sep).map(item => item.trim()).filter(item => item)`: the list fields of the form. */
  function ParseList(s: string, sep: char): (r: seq<string>)
    ensures WellFormedList(r, sep)
  {
    var pieces := Split(s, sep);
    var trimmed := TrimAll(pieces);
    var r := DropEmpty(trimmed);
    assert forall i :: 0 <= i < |trimmed| ==> sep !in trimmed[i] by {
      forall i | 0 <= i < |trimmed| ensures sep !in trimmed[i] {
        TrimKeepsOut(pieces[i], sep);
      }
    }
    r
  }

  lemma {:induction false} TrimAllConcat(a: seq<string>, b: seq<string>)
    ensures TrimAll(a + b) == TrimAll(a) + TrimAll(b)
  {
    if a == [] {
      assert a + b == b;
    } else {
      assert (a + b)[1..] == a[1..] + b;
      TrimAllConcat(a[1..], b);
    }
  }

  lemma {:induction false} DropEmptyConcat(a: seq<string>, b: seq<string>)
    ensures DropEmpty(a + b) == DropEmpty(a) + DropEmpty(b)
  {
    if a == [] {
      assert a + b == b;
    } else {
      assert (a + b)[1..] == a[1..] + b;
      DropEmptyConcat(a[1..], b);
    }
  }

  /** Text between separators parses to its trimmed self, or to nothing when blank. */
  lemma ParseListPiece(x: string, sep: char)
    requires sep !in x
    ensures ParseList(x, sep) == if Trim(x) == [] then [] else [Trim(x)]
  {
    SplitNoSep(x, sep);
    assert [x][1..] == [];
    var t := TrimAll([x]);
    assert t == [Trim(x)];
    assert t[1..] == [];
    assert ParseList(x, sep) == DropEmpty(t);
    assert DropEmpty(t) == if Trim(x) == [] then [] else [Trim(x)] + DropEmpty([]);
  }

  /** Parsing keeps order: the items of the text before a separator come first, then those after it. */
  lemma ParseListConcat(a: string, sep: char, b: string)
    ensures ParseList(a + [sep] + b, sep) == ParseList(a, sep) + ParseList(b, sep)
  {
    SplitConcat(a, sep, b);
    TrimAllConcat(Split(a, sep), Split(b, sep));
    DropEmptyConcat(TrimAll(Split(a, sep)), TrimAll(Split(b, sep)));
  }

  lemma ParseBlank(pad: string, sep: char)
    requires AllWhitespace(pad) && sep !in pad
    ensures ParseList(pad, sep) == []
  {
    ParseListPiece(pad, sep);
    TrimBlank(pad);
  }

  lemma ParsePaddedItem(pad: string, x: string, sep: char)
    requires AllWhitespace(pad) && WellFormedItem(x, sep) && sep !in pad
    ensures ParseList(pad + x, sep) == [x]
  {
    ParseListPiece(pad + x, sep);
    TrimPadded(pad, x);
  }

  /** The first item of a joined list parses on its own, before the rest. */
  lemma {:induction false} ParseJoinedStep(pad: string, x: string, rest: string, sep: char)
    requires AllWhitespace(pad) && !IsWhitespace(sep) && WellFormedItem(x, sep)
    ensures ParseList(pad + x + [sep, ' '] + rest, sep) == [x] + ParseList(" " + rest, sep)
  {
    assert sep !in pad;
    assert pad + x + [sep, ' '] + rest == (pad + x) + [sep] + (" " + rest);
    ParseListConcat(pad + x, sep, " " + rest);
    ParsePaddedItem(pad, x, sep);
  }

  lemma WellFormedTail(xs: seq<string>, sep: char)
    requires xs != [] && WellFormedList(xs, sep)
    ensures WellFormedList(xs[1..], sep)
  {
    forall i | 0 <= i < |xs[1..]| ensures WellFormedItem(xs[1..][i], sep) {
      assert xs[1..][i] == xs[i + 1];
    }
  }

  /** The join of a single item is that item. */
  lemma JoinSingle(xs: seq<string>, d: string)
    requires |xs| == 1
    ensures Join(xs, d) == xs[0] && [xs[0]] == xs
  {
  }

  /** The join of a longer list is its first item, the separator, and the join of the rest. */
  lemma PadJoinCons(pad: string, xs: seq<string>, d: string)
    requires |xs| >= 2
    ensures pad + Join(xs, d) == pad + xs[0] + d + Join(xs[1..], d)
    ensures [xs[0]] + xs[1..] == xs
  {
  }

  lemma {:induction false} ParseJoinedEmpty(pad: string, xs: seq<string>, sep: char)
    requires AllWhitespace(pad) && sep !in pad && |xs| == 0
    ensures ParseList(pad + Join(xs, [sep, ' ']), sep) == xs
  {
    assert pad + Join(xs, [sep, ' ']) == pad;
    ParseBlank(pad, sep);
  }

  lemma {:induction false} ParseJoinedSingle(pad: string, xs: seq<string>, sep: char)
    requires AllWhitespace(pad) && sep !in pad && |xs| == 1 && WellFormedItem(xs[0], sep)
    ensures ParseList(pad + Join(xs, [sep, ' ']), sep) == xs
  {
    JoinSingle(xs, [sep, ' ']);
    ParsePaddedItem(pad, xs[0], sep);
  }

  lemma {:induction false} ParseJoinedCons(pad: string, xs: seq<string>, sep: char)
    requires |xs| >= 2
    requires ParseList(pad + xs[0] + [sep, ' '] + Join(xs[1..], [sep, ' ']), sep) == [xs[0]] + xs[1..]
    ensures ParseList(pad + Join(xs, [sep, ' ']), sep) == xs
  {
    PadJoinCons(pad, xs, [sep, ' ']);
  }

  lemma {:induction false} ParseJoinedPadded(pad: string, xs: seq<string>, sep: char)
    requires AllWhitespace(pad) && !IsWhitespace(sep)
    requires WellFormedList(xs, sep)
    ensures ParseList(pad + Join(xs, [sep, ' ']), sep) == xs
    decreases |xs|
  {
    assert sep !in pad;
    if |xs| == 0 {
      ParseJoinedEmpty(pad, xs, sep);
    } else if |xs| == 1 {
      assert WellFormedItem(xs[0], sep);
      ParseJoinedSingle(pad, xs, sep);
    } else {
      assert WellFormedItem(xs[0], sep);
      WellFormedTail(xs, sep);
      ParseJoinedPadded(" ", xs[1..], sep);
      ParseJoinedStep(pad, xs[0], Join(xs[1..], [sep, ' ']), sep);
      ParseJoinedCons(pad, xs, sep);
    }
  }

  /** Joining with `", "` (or `"; "`) as the edit form does and parsing as the submit does gives
      the list back, when every item is non-empty, trimmed and free of the separator. */
  lemma ParseJoined(xs: seq<string>, sep: char)
    requires !IsWhitespace(sep)
    requires WellFormedList(xs, sep)
    ensures ParseList(Join(xs, [sep, ' ']), sep) == xs
  {
    ParseJoinedPadded("", xs, sep);
    assert "" + Join(xs, [sep, ' ']) == Join(xs, [sep, ' ']);
  }

  /** `value || default` on a string input: the empty string is falsy. */
  function OrDefault(value: string, default: string): (r: string)
    ensures value != "" ==> r == value
    ensures value == "" ==> r == default
  {
    if value == "" then default else value
  }

  /** `parseInt(value) || 0`: NaN and zero both become 0. */
  function ParseMinutes(value: string): (r: int)
    ensures ParseInt(value).None? ==> r == 0
    ensures ParseInt(value).Some? ==> r == ParseInt(value).value
  {
    match ParseInt(value)
    case None => 0
    case Some(n) => if n == 0 then 0 else n
  }

  /** The payload built from the form. Random calories, rating and review count of a new recipe
      are not part of it. */
  function BuildRecipeData(form: FormFields, isEditMode: bool): (d: RecipeData)
    ensures WellFormedList(d.ingredients, ',') && WellFormedList(d.instructions, ';')
    ensures WellFormedList(d.tags, ',') && WellFormedList(d.mealType, ',')
    ensures d.image != "" && d.cuisine != "" && d.difficulty != ""
    ensures d.ingredients == ParseList(form.ingredients, ',') && d.instructions == ParseList(form.instructions, ';')
    ensures d.tags == ParseList(form.tags, ',') && d.mealType == ParseList(form.mealType, ',')
    ensures form.image == "" ==> d.image == PLACEHOLDER_IMAGE
    ensures form.cuisine == "" ==> d.cuisine == DEFAULT_CUISINE
    ensures form.difficulty == "" ==> d.difficulty == DEFAULT_DIFFICULTY
    ensures form.image != "" ==> d.image == form.image
    ensures form.cuisine != "" ==> d.cuisine == form.cuisine
    ensures form.difficulty != "" ==> d.difficulty == form.difficulty
    ensures ParseInt(form.prepTime).None? ==> d.prepTimeMinutes == 0
    ensures ParseInt(form.cookTime).None? ==> d.cookTimeMinutes == 0
    ensures ParseInt(form.prepTime).Some? ==> d.prepTimeMinutes == ParseInt(form.prepTime).value
    ensures ParseInt(form.cookTime).Some? ==> d.cookTimeMinutes == ParseInt(form.cookTime).value
    ensures d.name == form.name
    ensures d.userId == if isEditMode then None else Some(NEW_RECIPE_USER_ID)
  {
    RecipeData(
      name := form.name,
      ingredients := ParseList(form.ingredients, ','),
      instructions := ParseList(form.instructions, ';'),
      image := OrDefault(form.image, PLACEHOLDER_IMAGE),
      prepTimeMinutes := ParseMinutes(form.prepTime),
      cookTimeMinutes := ParseMinutes(form.cookTime),
      cuisine := OrDefault(form.cuisine, DEFAULT_CUISINE),
      difficulty := OrDefault(form.difficulty, DEFAULT_DIFFICULTY),
      tags := ParseList(form.tags, ','),
      mealType := ParseList(form.mealType, ','),
      userId := if isEditMode then None else Some(NEW_RECIPE_USER_ID))
  }

  /** `$('#recipeId').val()` decides the mode: a non-empty id means edit. */
  predicate IsEditMode(form: FormFields)
  {
    form.recipeId != ""
  }

  /** The form filled from a fetched recipe: lists joined with `", "`, instructions with `"; "`,
      numbers rendered as `String(n)`. */
  function EditForm(r: Recipe): (f: FormFields)
    ensures IsEditMode(f)
    ensures ParseInt(f.recipeId) == Some(r.id)
  {
    ParseIntRoundTrip(r.id);
    FormFields(
      recipeId := IntToString(r.id),
      name := r.name,
      ingredients := Join(r.ingredients.GetOr([]), ", "),
      instructions := Join(r.instructions.GetOr([]), "; "),
      image := r.image,
      prepTime := IntToString(r.prepTimeMinutes),
      cookTime := IntToString(r.cookTimeMinutes),
      cuisine := r.cuisine,
      difficulty := r.difficulty,
      tags := Join(r.tags.GetOr([]), ", "),
      mealType := Join(r.mealType.GetOr([]), ", "))
  }

  /** Opening a recipe in the edit form and submitting it unchanged sends the recipe's own
      values back, with the defaults standing in for empty text fields, provided its list items
      are non-empty, trimmed and free of the separator. */
  lemma EditThenSubmit(r: Recipe)
    requires WellFormedList(r.ingredients.GetOr([]), ',') && WellFormedList(r.instructions.GetOr([]), ';')
    requires WellFormedList(r.tags.GetOr([]), ',') && WellFormedList(r.mealType.GetOr([]), ',')
    ensures var d := BuildRecipeData(EditForm(r), IsEditMode(EditForm(r)));
      && d.name == r.name
      && d.ingredients == r.ingredients.GetOr([])
      && d.instructions == r.instructions.GetOr([])
      && d.tags == r.tags.GetOr([])
      && d.mealType == r.mealType.GetOr([])
      && d.prepTimeMinutes == r.prepTimeMinutes
      && d.cookTimeMinutes == r.cookTimeMinutes
      && d.image == OrDefault(r.image, PLACEHOLDER_IMAGE)
      && d.cuisine == OrDefault(r.cuisine, DEFAULT_CUISINE)
      && d.difficulty == OrDefault(r.difficulty, DEFAULT_DIFFICULTY)
      && d.userId == None
  {
    ParseJoined(r.ingredients.GetOr([]), ',');
    ParseJoined(r.instructions.GetOr([]), ';');
    ParseJoined(r.tags.GetOr([]), ',');
    ParseJoined(r.mealType.GetOr([]), ',');
    ParseIntRoundTrip(r.prepTimeMinutes);
    ParseIntRoundTrip(r.cookTimeMinutes);
  }
}

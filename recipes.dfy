/** The recipe normaliser and the control flow of the three recipe queries
    (src/app/hooks/useRecipes.ts). The network is an oracle `api` that says,
    for each query, whether the request threw, answered with a non-ok status,
    or delivered a decoded body. */
module Recipes {
  import opened Wrappers
  import opened Seqs
  import opened JsString
  import opened Types

  /** Slot `index` (1..20) of a raw recipe: its ingredient and measure. */
  datatype Slot = Slot(index: nat, ingredient: Option<string>, measure: Option<string>)

  function SlotsOf(r: Recipe): (s: seq<Slot>)
    ensures |s| == SlotCount
    ensures forall i :: 0 <= i < SlotCount ==> s[i] == Slot(i + 1, r.strIngredient[i], r.strMeasure[i])
  {
    seq(SlotCount, i requires 0 <= i < SlotCount => Slot(i + 1, r.strIngredient[i], r.strMeasure[i]))
  }

  /** `ingredient && ingredient.trim()`: present and not blank. */
  predicate Yields(s: Slot) {
    s.ingredient.Some? && Trim(s.ingredient.value) != ""
  }

  /** The entry a yielding slot contributes: trimmed name, trimmed measure or
      "" when the measure is absent. */
  function EntryOf(s: Slot): Ingredient {
    Ingredient(Trim(s.ingredient.GetOr("")), if s.measure.Some? then Trim(s.measure.value) else "")
  }

  /** The slots that yield an entry, in ascending index order. */
  function KeptSlots(r: Recipe): seq<Slot> {
    Filter(SlotsOf(r), Yields)
  }

  /** What `processRecipe` returns, stated declaratively. */
  function Processed(r: Recipe): ProcessedRecipe {
    ProcessedRecipe(r.idMeal, r.strMeal, r.strInstructions, r.strMealThumb, Map(KeptSlots(r), EntryOf))
  }

  /** `processRecipe`: scans slots 1..20 in order and pushes an entry for
      every one that yields. */
  method ProcessRecipe(recipe: Recipe) returns (p: ProcessedRecipe)
    ensures p == Processed(recipe)
  {
    var ingredients: seq<Ingredient> := [];
    for i := 1 to SlotCount + 1
      invariant ingredients == Map(Filter(SlotsOf(recipe)[..i - 1], Yields), EntryOf)
    {
      var ingredient := recipe.strIngredient[i - 1];
      var measure := recipe.strMeasure[i - 1];
      MapFilterSnoc(SlotsOf(recipe), i, Yields, EntryOf);
      ghost var slot := SlotsOf(recipe)[i - 1];
      assert slot == Slot(i, ingredient, measure);
      if ingredient.Some? && Trim(ingredient.value) != "" {
        assert Yields(slot);
        ingredients := ingredients + [Ingredient(Trim(ingredient.value),
                                                 if measure.Some? then Trim(measure.value) else "")];
      }
    }
    assert SlotsOf(recipe)[..SlotCount] == SlotsOf(recipe);
    p := ProcessedRecipe(recipe.idMeal, recipe.strMeal, recipe.strInstructions,
                         recipe.strMealThumb, ingredients);
  }

  lemma {:induction false} SubseqMembers<T>(a: seq<T>, b: seq<T>)
    requires IsSubseq(a, b)
    ensures forall i :: 0 <= i < |a| ==> a[i] in b
    decreases |b|
  {
    if a != [] {
      if a[0] == b[0] && IsSubseq(a[1..], b[1..]) {
        SubseqMembers(a[1..], b[1..]);
        assert forall i :: 1 <= i < |a| ==> a[i] == a[1..][i - 1];
      } else {
        SubseqMembers(a, b[1..]);
      }
    }
  }

  /** A subsequence of a list whose slot indices increase strictly has
      strictly increasing slot indices too. */
  lemma {:induction false} SubseqKeepsIncreasing(a: seq<Slot>, b: seq<Slot>)
    requires IsSubseq(a, b)
    requires forall i, j :: 0 <= i < j < |b| ==> b[i].index < b[j].index
    ensures forall i, j :: 0 <= i < j < |a| ==> a[i].index < a[j].index
    decreases |b|
  {
    if a != [] {
      if a[0] == b[0] && IsSubseq(a[1..], b[1..]) {
        SubseqKeepsIncreasing(a[1..], b[1..]);
        SubseqMembers(a[1..], b[1..]);
        forall i, j | 0 <= i < j < |a| ensures a[i].index < a[j].index {
          assert a[j] == a[1..][j - 1];
          if i > 0 {
            assert a[i] == a[1..][i - 1];
          } else {
            var k :| 0 <= k < |b[1..]| && b[1..][k] == a[j];
            assert b[k + 1] == a[j];
          }
        }
      } else {
        SubseqKeepsIncreasing(a, b[1..]);
      }
    }
  }

  /** A slot is kept exactly when it yields an entry. */
  lemma KeptSlotsExact(r: Recipe)
    ensures IsSubseq(KeptSlots(r), SlotsOf(r))
    ensures forall i :: 0 <= i < SlotCount ==> (SlotsOf(r)[i] in KeptSlots(r) <==> Yields(SlotsOf(r)[i]))
  {
    var slots := SlotsOf(r);
    FilterIsSubseq(slots, Yields);
    FilterKeeps(slots, Yields);
    FilterMembers(slots, Yields);
  }

  /** The kept slots come in strictly ascending slot order. */
  lemma KeptSlotsAscending(r: Recipe)
    ensures forall a, b :: 0 <= a < b < |KeptSlots(r)| ==> KeptSlots(r)[a].index < KeptSlots(r)[b].index
  {
    var slots := SlotsOf(r);
    FilterIsSubseq(slots, Yields);
    SubseqKeepsIncreasing(KeptSlots(r), slots);
  }

  /** At most 20 entries; entry `k` comes from kept slot `k`, its name is the
      trimmed ingredient and is not blank; the other four fields are copied. */
  lemma ProcessedEntries(r: Recipe)
    ensures |Processed(r).ingredients| == |KeptSlots(r)| <= SlotCount
    ensures forall k :: 0 <= k < |KeptSlots(r)| ==>
      && Processed(r).ingredients[k] == EntryOf(KeptSlots(r)[k])
      && Processed(r).ingredients[k].name != ""
      && Processed(r).ingredients[k].name == Trim(KeptSlots(r)[k].ingredient.value)
    ensures Processed(r).id == r.idMeal && Processed(r).name == r.strMeal
    ensures Processed(r).instructions == r.strInstructions && Processed(r).image == r.strMealThumb
  {
  }

  /** Two yielding slots with the same ingredient text both produce an entry:
      nothing is de-duplicated. */
  lemma DuplicatesKept(r: Recipe, i: nat, j: nat)
    requires i < j < SlotCount
    requires Yields(SlotsOf(r)[i]) && Yields(SlotsOf(r)[j])
    requires r.strIngredient[i] == r.strIngredient[j]
    ensures exists a, b ::
      && 0 <= a < b < |Processed(r).ingredients|
      && Processed(r).ingredients[a].name == Processed(r).ingredients[b].name
      && Processed(r).ingredients[a].name == Trim(r.strIngredient[i].value)
  {
    var slots, kept := SlotsOf(r), KeptSlots(r);
    KeptSlotsExact(r);
    ProcessedEntries(r);
    assert slots[i] in kept && slots[j] in kept;
    var a :| 0 <= a < |kept| && kept[a] == slots[i];
    var b :| 0 <= b < |kept| && kept[b] == slots[j];
    assert a != b by { assert slots[i].index != slots[j].index; }
    if a < b {
      assert Processed(r).ingredients[a].name == Processed(r).ingredients[b].name;
    } else {
      assert Processed(r).ingredients[b].name == Processed(r).ingredients[a].name;
    }
  }

  /** The endpoints of the remote recipe API, with their parameter. */
  datatype Query = ByFirstLetter(letter: string) | ByName(term: string) | ById(id: string)

  /** What one request ends in: `fetch` or `response.json()` threw, the
      response was not ok, or a body arrived. */
  datatype FetchResult = Thrown | NotOk | Body(data: RecipeApiResponse)

  /** The error a query re-raises: the original exception, or the one it
      throws itself on a non-ok response. */
  datatype FetchError = RequestFailed | StatusError(message: string)

  /** The letters the sample is fetched for, in order. */
  const Letters: seq<string> := ["a", "b", "c", "d", "e"]

  /** What one letter contributes to the sample: its processed meals when
      the response was ok and `meals` was not null, nothing otherwise. */
  function LetterRecipes(res: FetchResult): seq<ProcessedRecipe> {
    if res.Body? && res.data.meals.Some? then Map(res.data.meals.value, Processed) else []
  }

  /** The contributions of `letters`, concatenated in order. */
  function Gathered(letters: seq<string>, api: Query -> FetchResult): seq<ProcessedRecipe> {
    if letters == [] then []
    else LetterRecipes(api(ByFirstLetter(letters[0]))) + Gathered(letters[1..], api)
  }

  lemma {:induction false} GatheredConcat(a: seq<string>, b: seq<string>, api: Query -> FetchResult)
    ensures Gathered(a + b, api) == Gathered(a, api) + Gathered(b, api)
  {
    if a == [] {
      assert a + b == b;
    } else {
      assert (a + b)[1..] == a[1..] + b;
      GatheredConcat(a[1..], b, api);
    }
  }

  /** Partial failure: a letter whose request threw, was not ok or had no
      meals is skipped, and the sample is what the other letters give. */
  lemma FailedLetterSkipped(letters: seq<string>, k: nat, api: Query -> FetchResult)
    requires k < |letters|
    requires api(ByFirstLetter(letters[k])).Thrown? || api(ByFirstLetter(letters[k])).NotOk?
          || (api(ByFirstLetter(letters[k])).Body? && api(ByFirstLetter(letters[k])).data.meals.None?)
    ensures Gathered(letters, api) == Gathered(letters[..k] + letters[k + 1..], api)
  {
    var pre, mid, post := letters[..k], [letters[k]], letters[k + 1..];
    assert letters == (pre + mid) + post;
    GatheredConcat(pre + mid, post, api);
    GatheredConcat(pre, mid, api);
    GatheredConcat(pre, post, api);
    assert Gathered(mid, api) == [];
    EmptyConcat(Gathered(pre, api));
  }

  /** Every sampled recipe is the processed form of a meal some ok letter
      returned. */
  lemma {:induction false} GatheredFromOkLetters(letters: seq<string>, api: Query -> FetchResult, x: ProcessedRecipe)
    requires x in Gathered(letters, api)
    ensures exists k, m ::
      && 0 <= k < |letters| && api(ByFirstLetter(letters[k])).Body?
      && api(ByFirstLetter(letters[k])).data.meals.Some?
      && m in api(ByFirstLetter(letters[k])).data.meals.value && x == Processed(m)
  {
    var res := api(ByFirstLetter(letters[0]));
    if x in LetterRecipes(res) {
      var i :| 0 <= i < |LetterRecipes(res)| && LetterRecipes(res)[i] == x;
      assert res.data.meals.value[i] in res.data.meals.value;
    } else {
      GatheredFromOkLetters(letters[1..], api, x);
      var k, m :| 0 <= k < |letters[1..]| && api(ByFirstLetter(letters[1..][k])).Body?
        && api(ByFirstLetter(letters[1..][k])).data.meals.Some?
        && m in api(ByFirstLetter(letters[1..][k])).data.meals.value && x == Processed(m);
      assert letters[1..][k] == letters[k + 1];
    }
  }

  lemma GatheredSnoc(letters: seq<string>, k: nat, api: Query -> FetchResult)
    requires k < |letters|
    ensures Gathered(letters[..k + 1], api)
         == Gathered(letters[..k], api) + LetterRecipes(api(ByFirstLetter(letters[k])))
  {
    var pre, mid := letters[..k], [letters[k]];
    assert letters[..k + 1] == pre + mid;
    GatheredConcat(pre, mid, api);
    assert Gathered(mid, api) == LetterRecipes(api(ByFirstLetter(letters[k]))) + Gathered([], api);
  }

  /** `fetchAllRecipes`: one request per letter, in order; each letter's
      failure is caught, so the call itself never fails. */
  method FetchAllRecipes(api: Query -> FetchResult) returns (all: seq<ProcessedRecipe>)
    ensures all == Gathered(Letters, api)
  {
    all := [];
    for k := 0 to |Letters|
      invariant all == Gathered(Letters[..k], api)
    {
      var response := api(ByFirstLetter(Letters[k]));
      GatheredSnoc(Letters, k, api);
      if response.Body? && response.data.meals.Some? {
        all := all + Map(response.data.meals.value, Processed);
      } else {
        assert LetterRecipes(response) == [];
      }
    }
    assert Letters[..|Letters|] == Letters;
  }

  /** `searchRecipes`: a blank term gives the sample; otherwise one request,
      whose failures are re-raised and whose null `meals` gives []. */
  method SearchRecipes(term: string, api: Query -> FetchResult)
    returns (r: Result<seq<ProcessedRecipe>, FetchError>)
    ensures Trim(term) == "" ==> r == Ok(Gathered(Letters, api))
    ensures Trim(term) != "" && api(ByName(term)).Thrown? ==> r == Err(RequestFailed)
    ensures Trim(term) != "" && api(ByName(term)).NotOk? ==> r == Err(StatusError("Failed to fetch recipes"))
    ensures Trim(term) != "" && api(ByName(term)).Body? && api(ByName(term)).data.meals.None? ==> r == Ok([])
    ensures Trim(term) != "" && api(ByName(term)).Body? && api(ByName(term)).data.meals.Some? ==>
      r == Ok(Map(api(ByName(term)).data.meals.value, Processed))
  {
    if Trim(term) == "" {
      var sample := FetchAllRecipes(api);
      return Ok(sample);
    }
    var response := api(ByName(term));
    match response
    case Thrown => r := Err(RequestFailed);
    case NotOk => r := Err(StatusError("Failed to fetch recipes"));
    case Body(data) =>
      if data.meals.None? {
        r := Ok([]);
      } else {
        r := Ok(Map(data.meals.value, Processed));
      }
  }

  /** The query function of `useRecipe`: null or empty `meals` means not
      found; otherwise the first meal, processed; failures are re-raised. */
  method LookupRecipe(id: string, api: Query -> FetchResult)
    returns (r: Result<Option<ProcessedRecipe>, FetchError>)
    ensures api(ById(id)).Thrown? ==> r == Err(RequestFailed)
    ensures api(ById(id)).NotOk? ==> r == Err(StatusError("Failed to fetch recipe"))
    ensures api(ById(id)).Body? && (api(ById(id)).data.meals.None? || api(ById(id)).data.meals.value == [])
      ==> r == Ok(None)
    ensures api(ById(id)).Body? && api(ById(id)).data.meals.Some? && api(ById(id)).data.meals.value != []
      ==> r == Ok(Some(Processed(api(ById(id)).data.meals.value[0])))
  {
    var response := api(ById(id));
    match response
    case Thrown => r := Err(RequestFailed);
    case NotOk => r := Err(StatusError("Failed to fetch recipe"));
    case Body(data) =>
      if data.meals.None? || |data.meals.value| == 0 {
        r := Ok(None);
      } else {
        var first := ProcessRecipe(data.meals.value[0]);
        r := Ok(Some(first));
      }
  }
}

/** The recipe index behind `RecipeProvider` (recipe_provider.py): it is built
    once from the list of raw recipe records, keeping the first recipe seen for
    each result item, and `get_recipe` turns a raw record into the normalised
    form the crafting resolver consumes. Downloading and reading the cache file
    are outside the model: the parsed file is a parameter. */
module Recipes {
  import opened Basics

  /** One raw ingredient entry; `amount` may be missing. */
  datatype RawIngredient = RawIngredient(id: int, amount: Option<nat>)

  /** One raw recipe record; `id`, `result` and `yields` (here `yieldAmount`) may be missing. */
  datatype RawRecipe = RawRecipe(
    id: Option<int>,
    result: Option<int>,
    yieldAmount: Option<int>,
    ingredients: seq<RawIngredient>)

  /** A normalised material: ingredient item and how many are needed. */
  datatype Ingredient = Ingredient(id: int, amount: nat)

  /** What `get_recipe` returns: `{recipe_id, result_amount, materials}`. */
  datatype Recipe = Recipe(recipeId: Option<int>, resultAmount: int, materials: seq<Ingredient>)

  /** The collaborator the crafting resolver consumes: result item id to the
      ordered materials of its recipe; an id without a key has no recipe. */
  type RecipeGraph = map<int, seq<Ingredient>>

  /** Python truthiness of `r.get('result')`: present and non-zero. */
  predicate HasResult(r: RawRecipe) {
    r.result.Some? && r.result.value != 0
  }

  function NormalisedIngredient(ing: RawIngredient): Ingredient {
    Ingredient(ing.id, ing.amount.GetOr(1))
  }

  function NormalisedMaterials(ings: seq<RawIngredient>): (r: seq<Ingredient>)
    ensures |r| == |ings|
    ensures forall i :: 0 <= i < |ings| ==>
              r[i].id == ings[i].id && r[i].amount == (if ings[i].amount.Some? then ings[i].amount.value else 1)
  {
    seq(|ings|, i requires 0 <= i < |ings| => NormalisedIngredient(ings[i]))
  }

  function NormalisedRecipe(raw: RawRecipe): Recipe {
    Recipe(raw.id, raw.yieldAmount.GetOr(1), NormalisedMaterials(raw.ingredients))
  }

  /** The index after inserting `data` in order into `index`, first one wins. */
  function Indexed(index: map<int, RawRecipe>, data: seq<RawRecipe>): map<int, RawRecipe> {
    if data == [] then index
    else
      var m := Indexed(index, data[..|data| - 1]);
      var r := data[|data| - 1];
      if HasResult(r) && r.result.value !in m then m[r.result.value := r] else m
  }

  /** The result ids of the records that carry one. */
  ghost function ResultIds(data: seq<RawRecipe>): set<int> {
    set i | 0 <= i < |data| && HasResult(data[i]) :: data[i].result.value
  }

  /** `data[i]` is the first record in `data` whose result is `k`. */
  ghost predicate FirstFor(data: seq<RawRecipe>, k: int, i: int) {
    && 0 <= i < |data|
    && HasResult(data[i]) && data[i].result.value == k
    && forall j :: 0 <= j < i ==> !(HasResult(data[j]) && data[j].result.value == k)
  }

  lemma ResultIdsSnoc(data: seq<RawRecipe>)
    requires data != []
    ensures ResultIds(data) == ResultIds(data[..|data| - 1]) +
              (if HasResult(data[|data| - 1]) then {data[|data| - 1].result.value} else {})
  {
    var front, r := data[..|data| - 1], data[|data| - 1];
    forall k | k in ResultIds(data)
      ensures k in ResultIds(front) + (if HasResult(r) then {r.result.value} else {})
    {
      var i :| 0 <= i < |data| && HasResult(data[i]) && data[i].result.value == k;
      if i < |front| { assert front[i] == data[i]; }
    }
    forall k | k in ResultIds(front) ensures k in ResultIds(data) {
      var i :| 0 <= i < |front| && HasResult(front[i]) && front[i].result.value == k;
      assert data[i] == front[i];
    }
  }

  /** A record that is first for its id in a prefix stays first in the whole. */
  lemma FirstForSnoc(data: seq<RawRecipe>, k: int, i: int)
    requires data != [] && FirstFor(data[..|data| - 1], k, i)
    ensures FirstFor(data, k, i)
  {
    assert forall j :: 0 <= j <= i ==> data[j] == data[..|data| - 1][j];
  }

  /** The last record is first for its id when no earlier record has that id. */
  lemma LastIsFirst(data: seq<RawRecipe>)
    requires data != [] && HasResult(data[|data| - 1])
    requires data[|data| - 1].result.value !in ResultIds(data[..|data| - 1])
    ensures FirstFor(data, data[|data| - 1].result.value, |data| - 1)
  {
    var front, k := data[..|data| - 1], data[|data| - 1].result.value;
    forall j | 0 <= j < |data| - 1 ensures !(HasResult(data[j]) && data[j].result.value == k) {
      assert data[j] == front[j];
    }
  }

  /** The index holds the old entries unchanged plus, for every new result id,
      the first record in `data` that produces it; records without a result
      are ignored. */
  lemma {:induction false} IndexKeepsFirst(index: map<int, RawRecipe>, data: seq<RawRecipe>)
    ensures Indexed(index, data).Keys == index.Keys + ResultIds(data)
    ensures forall k :: k in index ==> Indexed(index, data)[k] == index[k]
    ensures forall k :: k in Indexed(index, data) && k !in index ==>
              exists i :: FirstFor(data, k, i) && Indexed(index, data)[k] == data[i]
    decreases |data|
  {
    if data != [] {
      var front := data[..|data| - 1];
      var r := data[|data| - 1];
      IndexKeepsFirst(index, front);
      ResultIdsSnoc(data);
      var m := Indexed(index, front);
      forall k | k in Indexed(index, data) && k !in index
        ensures exists i :: FirstFor(data, k, i) && Indexed(index, data)[k] == data[i]
      {
        if k in m {
          var i :| FirstFor(front, k, i) && m[k] == front[i];
          FirstForSnoc(data, k, i);
        } else {
          LastIsFirst(data);
        }
      }
    }
  }

  /** The number of entries the load loop inserts is the number of distinct
      result ids in the data that were not indexed before. */
  lemma InsertedCount(index: map<int, RawRecipe>, data: seq<RawRecipe>)
    ensures |Indexed(index, data)| - |index| == |ResultIds(data) - index.Keys|
  {
    IndexKeepsFirst(index, data);
    var keys := Indexed(index, data).Keys;
    assert keys == index.Keys + (ResultIds(data) - index.Keys);
    assert |keys| == |Indexed(index, data)|;
  }

  class RecipeProvider {
    var recipeIndex: map<int, RawRecipe>
    var isLoaded: bool

    constructor ()
      ensures recipeIndex == map[] && !isLoaded
    {
      recipeIndex := map[];
      isLoaded := false;
    }

    /** The recipes the resolver sees: every indexed result id with its
        normalised materials, none before a successful load. */
    function Graph(): (g: RecipeGraph)
      reads this
      ensures isLoaded ==> g.Keys == recipeIndex.Keys
      ensures !isLoaded ==> g == map[]
    {
      if isLoaded then map k | k in recipeIndex :: NormalisedRecipe(recipeIndex[k]).materials
      else map[]
    }

    /** The loading step of `_download_and_load`: nothing happens when already
        loaded or when the cache file could not be obtained or parsed (`file`
        is None); otherwise every record is inserted, first one wins, and the
        number of inserted entries is returned. */
    method Load(file: Option<seq<RawRecipe>>) returns (count: nat)
      modifies this
      ensures old(isLoaded) || file.None? ==> recipeIndex == old(recipeIndex) && isLoaded == old(isLoaded) && count == 0
      ensures !old(isLoaded) && file.Some? ==>
                && isLoaded
                && recipeIndex == Indexed(old(recipeIndex), file.value)
                && count == |recipeIndex| - |old(recipeIndex)|
    {
      count := 0;
      if isLoaded || file.None? {
        return;
      }
      var data := file.value;
      var i := 0;
      while i < |data|
        invariant 0 <= i <= |data|
        invariant recipeIndex == Indexed(old(recipeIndex), data[..i])
        invariant count == |recipeIndex| - |old(recipeIndex)|
      {
        var r := data[i];
        assert data[..i + 1][..i] == data[..i];
        if HasResult(r) && r.result.value !in recipeIndex {
          recipeIndex := recipeIndex[r.result.value := r];
          count := count + 1;
        }
        i := i + 1;
      }
      assert data[..i] == data;
      isLoaded := true;
    }

    /** `get_recipe`: loads on first use, then looks the id up and normalises
        the raw record. */
    method GetRecipe(itemId: int, file: Option<seq<RawRecipe>>) returns (r: Option<Recipe>)
      modifies this
      ensures !old(isLoaded) ==> isLoaded == file.Some?
      ensures old(isLoaded) ==> isLoaded && recipeIndex == old(recipeIndex)
      ensures !old(isLoaded) && file.Some? ==> recipeIndex == Indexed(old(recipeIndex), file.value)
      ensures !old(isLoaded) && file.None? ==> recipeIndex == old(recipeIndex)
      ensures !isLoaded ==> r == None
      ensures isLoaded && itemId !in recipeIndex ==> r == None
      ensures isLoaded && itemId in recipeIndex ==> r == Some(NormalisedRecipe(recipeIndex[itemId]))
    {
      if !isLoaded {
        var _ := Load(file);
      }
      if !isLoaded {
        return None;
      }
      if itemId !in recipeIndex {
        return None;
      }
      var rec := Normalise(recipeIndex[itemId]);
      return Some(rec);
    }
  }

  /** The normalisation in `get_recipe`: one material per raw ingredient in the
      same order, `amount` defaulting to 1, and `result_amount` the raw
      `yields` defaulting to 1. */
  method Normalise(raw: RawRecipe) returns (rec: Recipe)
    ensures rec.recipeId == raw.id
    ensures rec.resultAmount == (if raw.yieldAmount.Some? then raw.yieldAmount.value else 1)
    ensures |rec.materials| == |raw.ingredients|
    ensures forall i :: 0 <= i < |raw.ingredients| ==>
              && rec.materials[i].id == raw.ingredients[i].id
              && rec.materials[i].amount == (if raw.ingredients[i].amount.Some? then raw.ingredients[i].amount.value else 1)
    ensures rec == NormalisedRecipe(raw)
  {
    var materials: seq<Ingredient> := [];
    var i := 0;
    while i < |raw.ingredients|
      invariant 0 <= i <= |raw.ingredients|
      invariant materials == NormalisedMaterials(raw.ingredients[..i])
    {
      var ing := raw.ingredients[i];
      materials := materials + [Ingredient(ing.id, ing.amount.GetOr(1))];
      i := i + 1;
    }
    assert raw.ingredients[..i] == raw.ingredients;
    rec := Recipe(raw.id, raw.yieldAmount.GetOr(1), materials);
  }
}

/** The meal-plan service: a recipe catalog, a registry of meal plans keyed
    by id, and the grocery list derived from a plan by scaling each entry's
    recipe and aggregating the lines. */
module MealPlans {
  import opened Wrappers
  import opened Seqs
  import opened Decimal
  import opened Grocery
  import opened Errors

  /** A recipe's base yield: a positive whole number of servings. */
  type Servings = n: int | n > 0 witness 1

  datatype Recipe = Recipe(
    id: string, title: string, description: string, servings: Servings,
    prepTimeMinutes: int, cookTimeMinutes: int, tags: seq<string>,
    ingredients: seq<Line>)

  /** A recipe without its ingredient lines, as the catalog listing shows it. */
  datatype RecipeSummary = RecipeSummary(
    id: string, title: string, description: string, servings: Servings,
    prepTimeMinutes: int, cookTimeMinutes: int, tags: seq<string>)

  /** A meal-plan entry as the caller sends it. `servings` is `None` when
      omitted; `extra` stands for any further fields, which are kept. */
  datatype EntryInput = EntryInput(
    recipeId: string, date: string, mealType: string, servings: Option<real>,
    extra: map<string, string>)

  /** A stored entry: the input with a generated id and resolved servings. */
  datatype PlanEntry = PlanEntry(
    id: string, recipeId: string, date: string, mealType: string, servings: real,
    extra: map<string, string>)

  datatype MealPlan = MealPlan(
    id: string, startDate: string, endDate: string, entries: seq<PlanEntry>,
    createdAt: string)

  datatype GroceryList = GroceryList(planId: string, ingredients: seq<Line>)

  function Summary(r: Recipe): RecipeSummary {
    RecipeSummary(r.id, r.title, r.description, r.servings, r.prepTimeMinutes, r.cookTimeMinutes, r.tags)
  }

  /** `listRecipes`: one summary per recipe, in catalog order. */
  function ListRecipes(recipes: seq<Recipe>): (r: seq<RecipeSummary>)
    ensures |r| == |recipes|
    ensures forall i :: 0 <= i < |r| ==>
      && r[i].id == recipes[i].id && r[i].title == recipes[i].title
      && r[i].description == recipes[i].description && r[i].servings == recipes[i].servings
      && r[i].prepTimeMinutes == recipes[i].prepTimeMinutes && r[i].cookTimeMinutes == recipes[i].cookTimeMinutes
      && r[i].tags == recipes[i].tags
  {
    seq(|recipes|, i requires 0 <= i < |recipes| => Summary(recipes[i]))
  }

  /** `getRecipe`: the first recipe with the id, if any. */
  function GetRecipe(recipes: seq<Recipe>, id: string): (r: Option<Recipe>)
    ensures r.Some? ==> r.value in recipes && r.value.id == id
    ensures r.None? <==> forall x :: x in recipes ==> x.id != id
    ensures r.Some? ==> exists i :: 0 <= i < |recipes| && recipes[i] == r.value &&
                                  (forall j :: 0 <= j < i ==> recipes[j].id != id)
  {
    Find(recipes, (x: Recipe) => x.id == id)
  }

  /** `entry.servings || recipe?.servings || 2`: an omitted or zero entry
      servings falls back to the recipe's, and to 2 for an unknown recipe. */
  function ResolvedServings(recipes: seq<Recipe>, e: EntryInput): (s: real)
    ensures s != 0.0
    ensures e.servings.Some? && e.servings.value != 0.0 ==> s == e.servings.value
    ensures (e.servings.None? || e.servings.value == 0.0) ==>
      s > 0.0 &&
      (GetRecipe(recipes, e.recipeId).Some? ==> s == GetRecipe(recipes, e.recipeId).value.servings as real) &&
      (GetRecipe(recipes, e.recipeId).None? ==> s == 2.0)
  {
    if e.servings.Some? && e.servings.value != 0.0 then e.servings.value
    else match GetRecipe(recipes, e.recipeId)
      case Some(recipe) => recipe.servings as real
      case None => 2.0
  }

  /** The entries of a new plan: the inputs in order, each given the
      corresponding fresh id and its resolved servings. */
  function NormalizeEntries(recipes: seq<Recipe>, entries: seq<EntryInput>, ids: seq<string>): (r: seq<PlanEntry>)
    requires |ids| == |entries|
    ensures |r| == |entries|
    ensures forall i :: 0 <= i < |r| ==>
      && r[i].id == ids[i]
      && r[i].recipeId == entries[i].recipeId
      && r[i].date == entries[i].date
      && r[i].mealType == entries[i].mealType
      && r[i].extra == entries[i].extra
      && r[i].servings == ResolvedServings(recipes, entries[i])
  {
    seq(|entries|, i requires 0 <= i < |entries| =>
      var e := entries[i];
      PlanEntry(ids[i], e.recipeId, e.date, e.mealType, ResolvedServings(recipes, e), e.extra))
  }

  /** `startDate || now.slice(0, 10)`: the given date, else the date part of
      the timestamp. */
  function StartDate(startDate: string, now: string): (d: string)
    ensures startDate != "" ==> d == startDate
    ensures startDate == "" ==> |d| <= 10 && d <= now && (|now| >= 10 ==> |d| == 10)
  {
    if startDate != "" then startDate
    else if |now| <= 10 then now
    else now[..10]
  }

  /** Scaling factor of an entry against its recipe's base yield. */
  function Factor(e: PlanEntry, recipe: Recipe): real {
    e.servings / (recipe.servings as real)
  }

  /** What one entry adds to the combined list: its recipe scaled, or nothing
      when the recipe is unknown. */
  function Contribution(recipes: seq<Recipe>, e: PlanEntry): seq<Line> {
    match GetRecipe(recipes, e.recipeId)
    case None => []
    case Some(recipe) => Aggregated(recipe.ingredients, Factor(e, recipe))
  }

  /** The contributions of all entries, concatenated in entry order. */
  function Combined(recipes: seq<Recipe>, entries: seq<PlanEntry>): seq<Line>
    decreases |entries|
  {
    if entries == [] then []
    else Combined(recipes, entries[..|entries| - 1]) + Contribution(recipes, entries[|entries| - 1])
  }

  lemma CombinedPrefix(recipes: seq<Recipe>, entries: seq<PlanEntry>, i: nat)
    requires i < |entries|
    ensures Combined(recipes, entries[..i + 1]) == Combined(recipes, entries[..i]) + Contribution(recipes, entries[i])
  {
    assert entries[..i + 1][..i] == entries[..i];
  }

  /** The grocery list of a plan: the combined lines aggregated once more. */
  function GroceryLines(recipes: seq<Recipe>, plan: MealPlan): seq<Line> {
    Aggregated(Combined(recipes, plan.entries), 1.0)
  }

  class MealPlanService {
    const recipes: seq<Recipe>
    var mealPlans: map<string, MealPlan>

    constructor(recipes: seq<Recipe>)
      ensures this.recipes == recipes && mealPlans == map[]
    {
      this.recipes := recipes;
      mealPlans := map[];
    }

    /** `getMealPlan`. */
    function GetMealPlan(id: string): (r: Option<MealPlan>)
      reads this
      ensures r.Some? <==> id in mealPlans
      ensures r.Some? ==> r.value == mealPlans[id]
    {
      if id in mealPlans then Some(mealPlans[id]) else None
    }

    /** `createMealPlan`, with the generated ids and the clock as parameters:
        builds the plan and stores it under its id. */
    method CreateMealPlan(startDate: string, entries: seq<EntryInput>,
                          planId: string, entryIds: seq<string>, now: string)
      returns (plan: MealPlan)
      requires |entryIds| == |entries|
      modifies this
      ensures plan.id == planId
      ensures plan.startDate == StartDate(startDate, now)
      ensures plan.endDate == ""
      ensures plan.entries == NormalizeEntries(recipes, entries, entryIds)
      ensures plan.createdAt == now
      ensures mealPlans == old(mealPlans)[planId := plan]
      ensures GetMealPlan(planId) == Some(plan)
      ensures forall id :: id != planId ==> GetMealPlan(id) == old(GetMealPlan(id))
    {
      plan := MealPlan(planId, StartDate(startDate, now), "", NormalizeEntries(recipes, entries, entryIds), now);
      mealPlans := mealPlans[planId := plan];
    }

    /** The loop of `buildGroceryList`: each entry's recipe scaled by the
        entry's servings over the recipe's, unknown recipes skipped, the
        results concatenated in entry order. */
    method CombineEntries(entries: seq<PlanEntry>) returns (combined: seq<Line>)
      ensures combined == Combined(recipes, entries)
    {
      combined := [];
      var i := 0;
      while i < |entries|
        invariant 0 <= i <= |entries|
        invariant combined == Combined(recipes, entries[..i])
      {
        var entry := entries[i];
        var recipe := GetRecipe(recipes, entry.recipeId);
        if recipe.Some? {
          var factor := entry.servings / (recipe.value.servings as real);
          var scaled := ScaleIngredients(recipe.value.ingredients, factor);
          assert scaled == Contribution(recipes, entry);
          combined := combined + scaled;
        } else {
          assert Contribution(recipes, entry) == [];
        }
        CombinedPrefix(recipes, entries, i);
        i := i + 1;
      }
      assert entries[..i] == entries;
    }

    /** `buildGroceryList`: scales each entry's recipe, skipping unknown ones,
        and aggregates everything with factor 1. */
    method BuildGroceryList(planId: string) returns (r: Result<GroceryList, ServiceError>)
      ensures planId !in mealPlans ==> r == Failure(MealPlanNotFound)
      ensures planId in mealPlans ==>
        r == Success(GroceryList(planId, GroceryLines(recipes, mealPlans[planId])))
    {
      var plan := GetMealPlan(planId);
      if plan.None? {
        return Failure(MealPlanNotFound);
      }
      var combined := CombineEntries(plan.value.entries);
      var aggregated := ScaleIngredients(combined, 1.0);
      r := Success(GroceryList(planId, aggregated));
    }
  }

  // ---------------------------------------------------------------------
  // Properties of the grocery list

  /** An entry contributes a key iff its recipe is known and has the key. */
  lemma ContributionKeys(recipes: seq<Recipe>, e: PlanEntry)
    ensures GetRecipe(recipes, e.recipeId).None? ==> KeySet(Contribution(recipes, e)) == {}
    ensures GetRecipe(recipes, e.recipeId).Some? ==>
      KeySet(Contribution(recipes, e)) == KeySet(GetRecipe(recipes, e.recipeId).value.ingredients)
  {
    match GetRecipe(recipes, e.recipeId)
    case None =>
    case Some(recipe) =>
      FoldKeys(recipe.ingredients, Amounts(recipe.ingredients, Factor(e, recipe)));
  }

  lemma KeySetAppend(a: seq<Line>, b: seq<Line>)
    ensures KeySet(a + b) == KeySet(a) + KeySet(b)
  {
    assert forall l :: l in a + b <==> l in a || l in b;
  }

  /** Entry `e` names a known recipe that has an ingredient line keyed `k`. */
  ghost predicate Supplies(recipes: seq<Recipe>, e: PlanEntry, k: string) {
    GetRecipe(recipes, e.recipeId).Some? && k in KeySet(GetRecipe(recipes, e.recipeId).value.ingredients)
  }

  lemma SuppliedContributes(recipes: seq<Recipe>, e: PlanEntry, k: string)
    requires Supplies(recipes, e, k)
    ensures k in KeySet(Contribution(recipes, e))
  {
    ContributionKeys(recipes, e);
  }

  /** Every key a known recipe of the plan supplies is in the combined list. */
  lemma {:induction false} CombinedHasSupplied(recipes: seq<Recipe>, entries: seq<PlanEntry>, k: string, i: nat)
    requires i < |entries| && Supplies(recipes, entries[i], k)
    ensures k in KeySet(Combined(recipes, entries))
  {
    var n := |entries| - 1;
    var init := entries[..n];
    assert Combined(recipes, entries) == Combined(recipes, init) + Contribution(recipes, entries[n]);
    KeySetAppend(Combined(recipes, init), Contribution(recipes, entries[n]));
    if i < n {
      assert init[i] == entries[i];
      CombinedHasSupplied(recipes, init, k, i);
    } else {
      assert i == n;
      SuppliedContributes(recipes, entries[n], k);
    }
  }

  /** Every key of the combined list is supplied by a known recipe of the
      plan: unknown recipes contribute nothing. */
  lemma {:induction false} CombinedOnlySupplied(recipes: seq<Recipe>, entries: seq<PlanEntry>, k: string) returns (i: nat)
    requires k in KeySet(Combined(recipes, entries))
    ensures i < |entries| && Supplies(recipes, entries[i], k)
  {
    var n := |entries| - 1;
    var init := entries[..n];
    KeySetAppend(Combined(recipes, init), Contribution(recipes, entries[n]));
    ContributionKeys(recipes, entries[n]);
    if k in KeySet(Combined(recipes, init)) {
      i := CombinedOnlySupplied(recipes, init, k);
      assert init[i] == entries[i];
    } else {
      i := n;
    }
  }

  /** A key is in the combined list iff some entry of the plan names a known
      recipe with an ingredient line of that key. */
  lemma CombinedKeys(recipes: seq<Recipe>, entries: seq<PlanEntry>, k: string)
    ensures k in KeySet(Combined(recipes, entries)) <==>
      exists i :: 0 <= i < |entries| && Supplies(recipes, entries[i], k)
  {
    if k in KeySet(Combined(recipes, entries)) {
      var i := CombinedOnlySupplied(recipes, entries, k);
    }
    if exists i :: 0 <= i < |entries| && Supplies(recipes, entries[i], k) {
      var i :| 0 <= i < |entries| && Supplies(recipes, entries[i], k);
      CombinedHasSupplied(recipes, entries, k, i);
    }
  }

  /** The grocery list names each ingredient key of the plan's known recipes
      exactly once, with a two-decimal quantity. */
  lemma GroceryListKeys(recipes: seq<Recipe>, plan: MealPlan, k: string)
    ensures DistinctKeys(GroceryLines(recipes, plan))
    ensures forall j :: 0 <= j < |GroceryLines(recipes, plan)| ==> IsTwoDecimal(GroceryLines(recipes, plan)[j].quantity)
    ensures k in KeySet(GroceryLines(recipes, plan)) <==>
      exists i :: 0 <= i < |plan.entries| && Supplies(recipes, plan.entries[i], k)
  {
    var combined := Combined(recipes, plan.entries);
    FoldKeys(combined, Amounts(combined, 1.0));
    FoldRounded(combined, Amounts(combined, 1.0));
    CombinedKeys(recipes, plan.entries, k);
  }

  /** An entry created without servings (or with 0) for a known recipe scales
      that recipe by exactly 1. */
  lemma DefaultServingsUnscaled(recipes: seq<Recipe>, e: EntryInput, id: string)
    requires e.servings.None? || e.servings.value == 0.0
    requires GetRecipe(recipes, e.recipeId).Some?
    ensures var p := NormalizeEntries(recipes, [e], [id])[0];
      Factor(p, GetRecipe(recipes, e.recipeId).value) == 1.0 &&
      Contribution(recipes, p) == Aggregated(GetRecipe(recipes, e.recipeId).value.ingredients, 1.0)
  {
    var p := NormalizeEntries(recipes, [e], [id])[0];
    var recipe := GetRecipe(recipes, e.recipeId).value;
    var n := recipe.servings as real;
    assert p.servings == n && n > 0.0;
    assert Factor(p, recipe) == n / n;
  }

  /** The grocery-list scenario: pasta with 3 cloves of garlic for 2, made for
      4, and a stir-fry with 2 cloves for 2, made for 3, need 9 cloves. */
  lemma GarlicScenario(pasta: Recipe, stirFry: Recipe, planId: string, id1: string, id2: string, now: string)
    requires pasta.id == "recipe-italian-pasta" && pasta.servings == 2
    requires pasta.ingredients == [Line("garlic", 3.0, "clove", map[])]
    requires stirFry.id == "recipe-veg-stirfry" && stirFry.servings == 2
    requires stirFry.ingredients == [Line("garlic", 2.0, "clove", map[])]
    ensures
      var entries := [
        EntryInput("recipe-italian-pasta", "2024-04-01", "dinner", Some(4.0), map[]),
        EntryInput("recipe-veg-stirfry", "2024-04-02", "dinner", Some(3.0), map[])];
      var plan := MealPlan(planId, "2024-04-01", "", NormalizeEntries([pasta, stirFry], entries, [id1, id2]), now);
      GroceryLines([pasta, stirFry], plan) == [Line("garlic", 9.0, "clove", map[])]
  {
    var recipes := [pasta, stirFry];
    var entries := [
      EntryInput("recipe-italian-pasta", "2024-04-01", "dinner", Some(4.0), map[]),
      EntryInput("recipe-veg-stirfry", "2024-04-02", "dinner", Some(3.0), map[])];
    var p := NormalizeEntries(recipes, entries, [id1, id2]);
    assert p == [p[0], p[1]];
    assert p[0].servings == 4.0 && p[1].servings == 3.0;
    GarlicRecipes(pasta, stirFry);
    var g2, g3, g6, g9 := Line("garlic", 2.0, "clove", map[]), Line("garlic", 3.0, "clove", map[]),
                          Line("garlic", 6.0, "clove", map[]), Line("garlic", 9.0, "clove", map[]);
    assert Factor(p[0], pasta) == 2.0 && Factor(p[1], stirFry) == 1.5;
    assert GetRecipe(recipes, p[0].recipeId) == Some(pasta) && GetRecipe(recipes, p[1].recipeId) == Some(stirFry);
    Round2Fixes(6.0);
    Round2Fixes(3.0);
    Round2Fixes(9.0);
    var e0 := p[0];
    assert GetRecipe(recipes, e0.recipeId) == Some(pasta);
    assert pasta.ingredients == [g3];
    assert Factor(e0, pasta) == 2.0;
    assert Round2(g3.quantity * 2.0) == 6.0;
    SingleLineContribution(recipes, e0, pasta, g3, 2.0, 6.0);
    SingleLineContribution(recipes, p[1], stirFry, g2, 1.5, 3.0);
    assert g3.(quantity := 6.0) == g6 && g2.(quantity := 3.0) == g3;
    CombinedPair(recipes, p[0], p[1]);
    assert Combined(recipes, p) == [g6, g3];
    PairOfLines(g6, g3);
    assert g6.(quantity := Round2(6.0 + 3.0)) == g9;
    var plan := MealPlan(planId, "2024-04-01", "", p, now);
    assert GroceryLines(recipes, plan) == Aggregated([g6, g3], 1.0);
  }

  lemma GarlicRecipes(pasta: Recipe, stirFry: Recipe)
    requires pasta.id == "recipe-italian-pasta" && stirFry.id == "recipe-veg-stirfry"
    ensures GetRecipe([pasta, stirFry], "recipe-italian-pasta") == Some(pasta)
    ensures GetRecipe([pasta, stirFry], "recipe-veg-stirfry") == Some(stirFry)
  {
    assert "recipe-italian-pasta" != "recipe-veg-stirfry" by {
      assert "recipe-italian-pasta"[7] != "recipe-veg-stirfry"[7];
    }
  }

  lemma SingleLineContribution(recipes: seq<Recipe>, e: PlanEntry, recipe: Recipe, l: Line, f: real, q: real)
    requires GetRecipe(recipes, e.recipeId) == Some(recipe) && recipe.ingredients == [l]
    requires Factor(e, recipe) == f && Round2(l.quantity * f) == q
    ensures Contribution(recipes, e) == [l.(quantity := q)]
  {
    SingleLine(l, f);
    assert Contribution(recipes, e) == Aggregated([l], f);
  }

  lemma CombinedPair(recipes: seq<Recipe>, a: PlanEntry, b: PlanEntry)
    ensures Combined(recipes, [a, b]) == Contribution(recipes, a) + Contribution(recipes, b)
  {
    assert [a, b][..1] == [a] && [a][..0] == [] && [a, b][1] == b;
    assert Combined(recipes, [a]) == Combined(recipes, []) + Contribution(recipes, a);
  }

  /** A one-line recipe scales to its rounded amount. */
  lemma SingleLine(l: Line, factor: real)
    ensures Aggregated([l], factor) == [l.(quantity := Round2(l.quantity * factor))]
  {
    var am := Amounts([l], factor);
    assert [l][..0] == [] && am[..0] == [];
    assert Aggregated([l], factor) == Fold([l], am);
    assert Fold([l], am) == Step(Fold([], []), l, am[0]);
    assert Fold([], []) == [];
    StepNew([], l, am[0]);
    assert am[0] == l.quantity * factor;
  }

  /** Two lines with the same key aggregate to their rounded sum. */
  lemma PairOfLines(a: Line, b: Line)
    requires Key(a) == Key(b) && IsTwoDecimal(a.quantity)
    ensures Aggregated([a, b], 1.0) == [a.(quantity := Round2(a.quantity + b.quantity))]
  {
    var am := Amounts([a, b], 1.0);
    assert am[0] == a.quantity && am[1] == b.quantity;
    assert am[..1][..0] == [] && [a, b][..1][..0] == [];
    Round2Fixes(a.quantity);
    assert Fold([a], am[..1]) == Step([], a, a.quantity);
    StepNew([], a, a.quantity);
    assert Fold([a, b], am) == Step([a], b, b.quantity);
    StepExisting([a], b, b.quantity, 0);
  }
}

/** The shopping service: turns a meal plan's grocery list into a cart at a
    retailer, mapping each ingredient to a product through a table of search
    aliases and buying whole packages. */
module Shopping {
  import opened Wrappers
  import opened Seqs
  import opened Decimal
  import opened Errors
  import opened Grocery
  import opened MealPlans
  import opened Retail

  /** Search terms for ingredient names that differ from the catalog's
      wording. */
  const IngredientSearchMap: map<string, string> := map[
    "spaghetti" := "spaghetti pasta",
    "cherry tomatoes" := "cherry tomatoes",
    "fresh basil" := "basil",
    "garlic" := "garlic",
    "olive oil" := "olive oil",
    "salt" := "sea salt",
    "black pepper" := "black pepper",
    "boneless chicken thighs" := "chicken thighs",
    "corn tortillas" := "corn tortillas",
    "lime" := "limes",
    "orange juice" := "orange juice",
    "red cabbage" := "red cabbage",
    "cilantro" := "cilantro",
    "carrots" := "carrots",
    "snow peas" := "snow peas",
    "bell pepper" := "bell pepper",
    "ginger" := "ginger",
    "soy sauce" := "soy sauce",
    "sesame oil" := "sesame oil",
    "rice vinegar" := "rice vinegar",
    "broccoli florets" := "broccoli"]

  /** `ingredientSearchMap[name] || name`. */
  function SearchTerm(name: string): string {
    if name in IngredientSearchMap && IngredientSearchMap[name] != "" then IngredientSearchMap[name] else name
  }

  /** Every alias is non-empty, so an aliased name is always searched under
      its alias, and any other name under itself. */
  lemma SearchTermAlias(name: string)
    ensures name in IngredientSearchMap ==> SearchTerm(name) == IngredientSearchMap[name]
    ensures name !in IngredientSearchMap ==> SearchTerm(name) == name
    ensures SearchTerm("salt") == "sea salt" && SearchTerm("lime") == "limes"
  {
    assert forall k :: k in IngredientSearchMap ==> IngredientSearchMap[k] != "";
  }

  /** The first in-stock product, else the first product, else nothing. */
  function PickProduct(products: seq<Product>): (r: Option<Product>)
    ensures r.None? <==> products == []
    ensures (exists p :: p in products && p.inStock) ==>
              (r.Some? && r.value.inStock &&
               exists i :: 0 <= i < |products| && products[i] == r.value && (forall j :: 0 <= j < i ==> !products[j].inStock))
    ensures (forall p :: p in products ==> !p.inStock) && products != [] ==> r == Some(products[0])
  {
    match Find(products, (p: Product) => p.inStock)
    case Some(p) => Some(p)
    case None => if products == [] then None else Some(products[0])
  }

  /** `mapIngredientToProduct`: search under the ingredient's search term in
      the store (or the zipcode's stores) and pick a product. */
  function MapIngredientToProduct(stores: seq<Store>, catalog: Catalog, ingredient: Line, storeId: string, zipcode: string)
    : (r: Option<Product>)
    ensures var hits := Search(stores, catalog, SearchTerm(ingredient.ingredient), storeId, zipcode);
      (r.None? <==> hits == []) && (r.Some? ==> r.value in hits)
  {
    PickProduct(Search(stores, catalog, SearchTerm(ingredient.ingredient), storeId, zipcode))
  }

  /** `Math.max(1, Math.ceil(quantity / (packageSize || 1)))`. */
  function PackageCount(quantity: real, packageSize: real): (n: int)
    ensures n >= 1
  {
    var size := if packageSize != 0.0 then packageSize else 1.0;
    var c := Ceil(quantity / size);
    if c < 1 then 1 else c
  }

  /** With a positive package size, the count is the least number of
      packages (at least one) that covers the quantity. */
  lemma PackageCountMinimal(quantity: real, packageSize: real)
    requires packageSize > 0.0
    ensures (PackageCount(quantity, packageSize) as real) * packageSize >= quantity
    ensures PackageCount(quantity, packageSize) == 1 ||
      ((PackageCount(quantity, packageSize) - 1) as real) * packageSize < quantity
  {
    var n := PackageCount(quantity, packageSize);
    var x := quantity / packageSize;
    var c := Ceil(x);
    assert x * packageSize == quantity;
    assert x <= c as real;
    MultiplyMonotone(x, c as real, packageSize);
    if c < 1 {
      MultiplyMonotone(c as real, 1.0, packageSize);
    } else {
      assert n == c;
      assert (c - 1) as real < x;
      MultiplyStrict((c - 1) as real, x, packageSize);
      assert ((n - 1) as real) * packageSize < x * packageSize;
      assert ((n - 1) as real) * packageSize < quantity;
    }
  }

  lemma MultiplyMonotone(a: real, b: real, k: real)
    requires a <= b && k > 0.0
    ensures a * k <= b * k
  {
  }

  lemma MultiplyStrict(a: real, b: real, k: real)
    requires a < b && k > 0.0
    ensures a * k < b * k
  {
  }

  /** The cart request for a matched ingredient: whole packages, at least
      one, in unit `ea`. */
  function CartRequest(ingredient: Line, product: Product): (item: ItemRequest)
    ensures item.sku == product.sku && item.unit == "ea" && item.category == None
    ensures item.quantity >= 1.0 && item.quantity == (item.quantity.Floor as real)
    ensures item.quantity == PackageCount(ingredient.quantity, product.packageSize) as real
  {
    ItemRequest(product.sku, PackageCount(ingredient.quantity, product.packageSize) as real, "ea", None)
  }

  /** What the ingredient loop produces: cart requests for matched
      ingredients, and the unmatched ingredients, both in list order. */
  datatype Resolution = Resolution(items: seq<ItemRequest>, unmatched: seq<Line>)

  /** The product picked for each ingredient. */
  function Picks(stores: seq<Store>, catalog: Catalog, ingredients: seq<Line>, storeId: string, zipcode: string)
    : (r: seq<Option<Product>>)
    ensures |r| == |ingredients|
    ensures forall i :: 0 <= i < |r| ==> r[i] == MapIngredientToProduct(stores, catalog, ingredients[i], storeId, zipcode)
  {
    seq(|ingredients|, i requires 0 <= i < |ingredients| =>
      MapIngredientToProduct(stores, catalog, ingredients[i], storeId, zipcode))
  }

  /** The ingredient loop, ingredient i having pick `picks[i]`. */
  function ResolveWith(ingredients: seq<Line>, picks: seq<Option<Product>>): Resolution
    requires |picks| == |ingredients|
    decreases |ingredients|
  {
    if ingredients == [] then Resolution([], [])
    else
      var n := |ingredients| - 1;
      var prev := ResolveWith(ingredients[..n], picks[..n]);
      match picks[n]
      case None => prev.(unmatched := prev.unmatched + [ingredients[n]])
      case Some(product) => prev.(items := prev.items + [CartRequest(ingredients[n], product)])
  }

  function Resolve(stores: seq<Store>, catalog: Catalog, ingredients: seq<Line>, storeId: string, zipcode: string)
    : Resolution
  {
    ResolveWith(ingredients, Picks(stores, catalog, ingredients, storeId, zipcode))
  }

  lemma ResolvePrefix(ingredients: seq<Line>, picks: seq<Option<Product>>, i: nat)
    requires |picks| == |ingredients| && i < |ingredients|
    ensures var prev := ResolveWith(ingredients[..i], picks[..i]);
      ResolveWith(ingredients[..i + 1], picks[..i + 1]) ==
        match picks[i]
        case None => prev.(unmatched := prev.unmatched + [ingredients[i]])
        case Some(product) => prev.(items := prev.items + [CartRequest(ingredients[i], product)])
  {
    assert ingredients[..i + 1][..i] == ingredients[..i];
    assert picks[..i + 1][..i] == picks[..i];
  }

  /** The outcome of `buildCartFromMealPlan` for a known plan. `zipcode` is
      the cart's, absent when the cart could not be created. */
  datatype CartFromPlan = CartFromPlan(
    planId: string, storeId: string, zipcode: Option<string>,
    cart: Result<Cart, ServiceError>, unmatchedIngredients: seq<Line>)

  class ShoppingService {
    const mealPlanService: MealPlanService
    const retailerService: RetailerService

    constructor(mealPlanService: MealPlanService, retailerService: RetailerService)
      ensures this.mealPlanService == mealPlanService && this.retailerService == retailerService
    {
      this.mealPlanService := mealPlanService;
      this.retailerService := retailerService;
    }

    /** The ingredient loop of `buildCartFromMealPlan`: each grocery line is
        searched for under its search term; a match becomes a request for
        whole packages, a miss is kept as unmatched. */
    method ResolveIngredients(ingredients: seq<Line>, storeId: string, zipcode: string)
      returns (items: seq<ItemRequest>, unmatched: seq<Line>)
      ensures Resolution(items, unmatched) ==
        Resolve(retailerService.stores, retailerService.catalog, ingredients, storeId, zipcode)
    {
      var stores, catalog := retailerService.stores, retailerService.catalog;
      ghost var picks := Picks(stores, catalog, ingredients, storeId, zipcode);
      items, unmatched := [], [];
      var i := 0;
      while i < |ingredients|
        invariant 0 <= i <= |ingredients|
        invariant Resolution(items, unmatched) == ResolveWith(ingredients[..i], picks[..i])
      {
        var ingredient := ingredients[i];
        var product := MapIngredientToProduct(stores, catalog, ingredient, storeId, zipcode);
        assert product == picks[i];
        if product.None? {
          unmatched := unmatched + [ingredient];
        } else {
          items := items + [CartRequest(ingredient, product.value)];
        }
        ResolvePrefix(ingredients, picks, i);
        i := i + 1;
      }
      assert ingredients[..i] == ingredients && picks[..i] == picks;
    }

    /** `buildCartFromMealPlan`, with the fresh cart id and the clock as
        parameters. */
    method BuildCartFromMealPlan(planId: string, storeId: string, zipcode: string, cartId: string, now: string)
      returns (r: Result<CartFromPlan, ServiceError>)
      modifies retailerService
      ensures planId !in mealPlanService.mealPlans ==>
        r == Failure(MealPlanNotFound) && retailerService.carts == old(retailerService.carts)
      ensures planId in mealPlanService.mealPlans ==>
        var res := Resolve(retailerService.stores, retailerService.catalog,
          GroceryLines(mealPlanService.recipes, mealPlanService.mealPlans[planId]), storeId, zipcode);
        var store := GetStore(retailerService.stores, storeId);
        && (store.None? ==>
              && r == Success(CartFromPlan(planId, storeId, None, Failure(StoreNotFound), res.unmatched))
              && retailerService.carts == old(retailerService.carts))
        && (store.Some? ==>
              var cart := NewCart(store.value, zipcode, ValidateAll(retailerService.catalog, storeId, res.items), cartId, now);
              && r == Success(CartFromPlan(planId, storeId, Some(cart.zipcode), Success(cart), res.unmatched))
              && retailerService.carts == old(retailerService.carts)[cartId := cart])
    {
      var groceryList := mealPlanService.BuildGroceryList(planId);
      if groceryList.Failure? {
        return Failure(groceryList.error);
      }
      var ingredients := groceryList.value.ingredients;
      var items, unmatched := ResolveIngredients(ingredients, storeId, zipcode);
      var cart := retailerService.CreateCart(storeId, zipcode, items, cartId, now);
      assert mealPlanService.mealPlans == old(mealPlanService.mealPlans);
      var cartZipcode := if cart.Success? then Some(cart.value.zipcode) else None;
      r := Success(CartFromPlan(planId, storeId, cartZipcode, cart, unmatched));
    }
  }

  // ---------------------------------------------------------------------
  // Properties of the ingredient loop

  /** Every ingredient is either matched or unmatched, never both. */
  lemma {:induction false} ResolveCounts(ingredients: seq<Line>, picks: seq<Option<Product>>)
    requires |picks| == |ingredients|
    ensures |ResolveWith(ingredients, picks).items| + |ResolveWith(ingredients, picks).unmatched| == |ingredients|
  {
    if ingredients != [] {
      var n := |ingredients| - 1;
      ResolveCounts(ingredients[..n], picks[..n]);
    }
  }

  /** The unmatched ingredients keep grocery-list order. */
  lemma {:induction false} ResolveOrder(ingredients: seq<Line>, picks: seq<Option<Product>>)
    requires |picks| == |ingredients|
    ensures IsSubsequence(ResolveWith(ingredients, picks).unmatched, ingredients)
  {
    if ingredients != [] {
      var n := |ingredients| - 1;
      var init, last := ingredients[..n], ingredients[n];
      ResolveOrder(init, picks[..n]);
      var prev := ResolveWith(init, picks[..n]).unmatched;
      var next := ResolveWith(ingredients, picks).unmatched;
      assert ingredients == init + [last];
      SubsequenceStep(prev, init, last, next);
    }
  }

  /** The cart requests are those of the matched ingredients. */
  lemma {:induction false} ResolveItems(ingredients: seq<Line>, picks: seq<Option<Product>>)
    requires |picks| == |ingredients|
    ensures forall item :: item in ResolveWith(ingredients, picks).items ==>
      exists i :: 0 <= i < |ingredients| && picks[i].Some? && item == CartRequest(ingredients[i], picks[i].value)
  {
    if ingredients != [] {
      var n := |ingredients| - 1;
      ResolveItems(ingredients[..n], picks[..n]);
      var prev := ResolveWith(ingredients[..n], picks[..n]);
      forall item | item in ResolveWith(ingredients, picks).items
        ensures exists i :: 0 <= i < |ingredients| && picks[i].Some? && item == CartRequest(ingredients[i], picks[i].value)
      {
        if item in prev.items {
          var i :| 0 <= i < n && picks[..n][i].Some? && item == CartRequest(ingredients[..n][i], picks[..n][i].value);
          assert picks[i] == picks[..n][i] && ingredients[i] == ingredients[..n][i];
        } else {
          assert picks[n].Some? && item == CartRequest(ingredients[n], picks[n].value);
        }
      }
    }
  }

  /** Resolving a list split in two resolves each part and concatenates the
      results: cart requests and unmatched ingredients both keep grocery-list
      order. */
  lemma {:induction false} ResolveAppend(a: seq<Line>, pa: seq<Option<Product>>, b: seq<Line>, pb: seq<Option<Product>>)
    requires |pa| == |a| && |pb| == |b|
    ensures ResolveWith(a + b, pa + pb) ==
      Resolution(ResolveWith(a, pa).items + ResolveWith(b, pb).items,
                 ResolveWith(a, pa).unmatched + ResolveWith(b, pb).unmatched)
  {
    if b == [] {
      assert a + b == a && pa + pb == pa;
    } else {
      var n := |b| - 1;
      var ab, pab := a + b, pa + pb;
      ResolveAppend(a, pa, b[..n], pb[..n]);
      assert ab[..|a| + n] == a + b[..n];
      assert pab[..|a| + n] == pa + pb[..n];
      assert ab[|a| + n] == b[n] && pab[|a| + n] == pb[n];
    }
  }

  /** A single ingredient becomes the request for its pick, or is unmatched. */
  lemma ResolveOne(g: Line, pick: Option<Product>)
    ensures pick.Some? ==> ResolveWith([g], [pick]) == Resolution([CartRequest(g, pick.value)], [])
    ensures pick.None? ==> ResolveWith([g], [pick]) == Resolution([], [g])
  {
    assert [g][..0] == [] && [pick][..0] == [];
  }

  /** An ingredient is left unmatched exactly when it was picked nothing. */
  lemma {:induction false} ResolveUnmatched(ingredients: seq<Line>, picks: seq<Option<Product>>)
    requires |picks| == |ingredients|
    ensures forall g :: g in ResolveWith(ingredients, picks).unmatched <==>
      exists i :: 0 <= i < |ingredients| && picks[i].None? && g == ingredients[i]
  {
    if ingredients != [] {
      var n := |ingredients| - 1;
      ResolveUnmatched(ingredients[..n], picks[..n]);
      var prev := ResolveWith(ingredients[..n], picks[..n]);
      forall g ensures g in ResolveWith(ingredients, picks).unmatched <==>
        exists i :: 0 <= i < |ingredients| && picks[i].None? && g == ingredients[i]
      {
        if exists i :: 0 <= i < |ingredients| && picks[i].None? && g == ingredients[i] {
          var i :| 0 <= i < |ingredients| && picks[i].None? && g == ingredients[i];
          if i < n {
            assert picks[..n][i].None? && g == ingredients[..n][i];
          }
        }
        if g in prev.unmatched {
          var i :| 0 <= i < n && picks[..n][i].None? && g == ingredients[..n][i];
          assert picks[i].None? && g == ingredients[i];
        }
      }
    }
  }

  /** An ingredient of the grocery list is left unmatched exactly when the
      search under its term finds nothing. */
  lemma UnmatchedIffNotFound(stores: seq<Store>, catalog: Catalog, ingredients: seq<Line>, storeId: string, zipcode: string, g: Line)
    ensures g in Resolve(stores, catalog, ingredients, storeId, zipcode).unmatched <==>
      g in ingredients && Search(stores, catalog, SearchTerm(g.ingredient), storeId, zipcode) == []
  {
    var picks := Picks(stores, catalog, ingredients, storeId, zipcode);
    ResolveUnmatched(ingredients, picks);
    if g in ingredients && Search(stores, catalog, SearchTerm(g.ingredient), storeId, zipcode) == [] {
      var i :| 0 <= i < |ingredients| && ingredients[i] == g;
      assert picks[i].None?;
    }
  }

  /** A known store is searched in its own inventory only, so every matched
      SKU exists there: validation can reject it only as out of stock. */
  lemma KnownStoreSkusFound(stores: seq<Store>, catalog: Catalog, ingredients: seq<Line>, storeId: string, zipcode: string)
    requires storeId != "" && GetStore(stores, storeId).Some?
    ensures forall f :: f in ValidateAll(catalog, storeId, Resolve(stores, catalog, ingredients, storeId, zipcode).items).fallbacks ==>
      f.reason == OutOfStock
  {
    var picks := Picks(stores, catalog, ingredients, storeId, zipcode);
    var res := ResolveWith(ingredients, picks);
    ResolveItems(ingredients, picks);
    forall item | item in res.items ensures FindProduct(catalog, storeId, item.sku).Some? {
      var i :| 0 <= i < |ingredients| && picks[i].Some? && item == CartRequest(ingredients[i], picks[i].value);
      var term := SearchTerm(ingredients[i].ingredient);
      var h := picks[i].value;
      assert h in Search(stores, catalog, term, storeId, zipcode);
      SearchResults(stores, catalog, term, storeId, zipcode);
      var s, p :| s in StoresForLookup(stores, storeId, zipcode) && p in Inventory(catalog, s.id) &&
        Matches(p, term) && h == p.(storeId := s.id);
      assert p.sku == item.sku;
    }
    OnlyOutOfStock(catalog, storeId, res.items);
  }

  /** Requests whose SKUs all exist are never rejected as unknown. */
  lemma {:induction false} OnlyOutOfStock(catalog: Catalog, storeId: string, items: seq<ItemRequest>)
    requires forall item :: item in items ==> FindProduct(catalog, storeId, item.sku).Some?
    ensures forall f :: f in ValidateAll(catalog, storeId, items).fallbacks ==> f.reason == OutOfStock
  {
    if items != [] {
      var n := |items| - 1;
      assert forall item :: item in items[..n] ==> item in items;
      OnlyOutOfStock(catalog, storeId, items[..n]);
      var prev := ValidateAll(catalog, storeId, items[..n]);
      var o := Validate(catalog, storeId, items[n]);
      assert ValidateAll(catalog, storeId, items) == AddOutcome(prev, o);
      KnownSkuOutcome(catalog, storeId, items[n]);
      AddOutcomeFallbacks(prev, o);
    }
  }

  /** A request whose SKU exists is accepted or rejected as out of stock. */
  lemma KnownSkuOutcome(catalog: Catalog, storeId: string, item: ItemRequest)
    requires FindProduct(catalog, storeId, item.sku).Some?
    ensures Validate(catalog, storeId, item).Rejected? ==> Validate(catalog, storeId, item).fallback.reason == OutOfStock
  {
  }
}

# Recipe planner: meal plans, grocery lists and retailer carts

This project is a Dafny model of the service layer of a recipe-planning app.
The layer has three services:

- **Meal plans** (`MealPlans`). The service lists recipes and keeps meal plans keyed by id. A plan's entries name a recipe and a number of servings. `buildGroceryList` scales each entry's recipe by `servings / recipe.servings` and merges all ingredient lines into one list. The merge is the aggregator `scaleIngredients` (`Grocery`): lines with the same `ingredient|unit` key are summed, in order of first appearance, and the running total is rounded to two decimals after every addition.
- **Retailer** (`Retail`). It holds stores, a per-store catalog and carts keyed by id. It provides:
  - store lookup by id or zipcode;
  - a case-insensitive substring product search over name, brand and category;
  - item validation, which turns each requested SKU into a priced cart line or a fallback (`sku_not_found` / `out_of_stock`) with up to three in-stock alternatives of the same category;
  - cart creation and addition, with a subtotal rounded to two decimals;
  - checkout links whose query string is form-encoded (`FormEncoding`).
- **Shopping** (`Shopping`). It turns a meal plan into a draft cart. Each grocery ingredient is searched under an alias term. The first in-stock hit is picked, or else the first hit. The item asks for `max(1, ceil(quantity / packageSize))` packages. Ingredients without any hit are reported as unmatched.

Shared pieces:

- `Decimal` models `Number(x.toFixed(2))` on exact reals.
- `Text` models `toLowerCase` and `includes`.
- `Seqs` holds `find`/`filter` and the subsequence relation.
- `Wrappers`/`Errors` hold `Option`, `Result` and the three error codes.

The stateful objects are classes:

- `MealPlanService` keeps its `mealPlans` map.
- `RetailerService` keeps its `carts` map.
- `ShoppingService` holds references to the other two.

Each loop in the source is a method proved equal to a prefix-recursive specification function (`Aggregated`, `Combined`, `Search`, `ValidateAll`, `Resolve`). The properties below are lemmas about those functions.

The HTTP tests expect more than `createMealPlan` does. `tests/api.test.js:133` expects an `endDate` of `2024-04-07`, and `tests/api.test.js:157-216` expects entry validation and date inference. The model follows the code:

- `createMealPlan` does not validate entries.
- It does not infer a start date from the entries.
- It always stores an empty `endDate`.

Inputs from outside the source become parameters:

- the random UUIDs become `planId`, `entryIds` and `cartId`;
- the `new Date().toISOString()` calls become one `now` timestamp string;
- the recipe, store and catalog data files become constructor arguments.

## Model

| member | source | states |
|---|---|---|
| Errors.ServiceError.Code | src/services/mealPlanService.js:65 | each error is reported by a non-empty code: `meal_plan_not_found`, `store_not_found`, `cart_not_found` |
| Decimal.Round2 | src/services/mealPlanService.js:10 | `Number(x.toFixed(2))` yields a two-decimal value within 0.005 of `x`; a tie goes away from zero (strictly above `x - 0.005` for non-negative `x`, strictly below `x + 0.005` for negative `x`), which fixes the value uniquely; non-negative values stay non-negative |
| Decimal.Round2Fixes | src/services/mealPlanService.js:10 | rounding a value that already has two decimals returns it unchanged |
| Decimal.Round2Idempotent | src/services/mealPlanService.js:10 | rounding twice is rounding once |
| Decimal.Ceil | src/services/shoppingService.js:56 | `Math.ceil` returns the least integer not below its argument |
| Text.Lower | src/services/retailerService.js:42-44 | `toLowerCase` keeps the length, maps each ASCII capital to its lower-case letter, and leaves every other character alone |
| Text.ContainsIff | src/services/retailerService.js:42-44 | `includes` holds exactly when the query occurs at some position of the text |
| Seqs.Filter | src/services/retailerService.js:24 | `filter` keeps exactly the elements satisfying the predicate, each with its full multiplicity, in order (a subsequence) |
| Seqs.Find | src/services/retailerService.js:28 | `find` returns the first element satisfying the predicate, and none exactly when no element does |
| FormEncoding.Encode | src/services/retailerService.js:164 | form encoding emits only unreserved characters, `+` and `%` escapes, so `&`, `=`, `?`, `#` and spaces never appear in an encoded value |
| FormEncoding.DecodeEncode | src/services/retailerService.js:164 | decoding the form encoding of an ASCII string gives the string back |
| FormEncoding.TwoFieldsEqual | src/services/retailerService.js:164 | two `a=x&b=y` strings with the same names, whose values contain no `&`, are equal only if their values are equal field by field |
| Grocery.IndexOfKey | src/services/mealPlanService.js:9 | the map lookup `aggregated.get(key)` finds the first entry with that key, and none exactly when no entry has it |
| Grocery.ScaleIngredients | src/services/mealPlanService.js:4-15 | the Map-based loop returns exactly the left fold `Aggregated(lines, factor)`: each line bumps its key's entry by `quantity * factor` and rounds it, or appends a fresh entry |
| Grocery.FoldKeys | src/services/mealPlanService.js:8-14 | the aggregated list has pairwise distinct keys, no more lines than the input, and exactly the input's set of keys |
| Grocery.FoldFirstOccurrence | src/services/mealPlanService.js:9-14 | each output line is the first input line with its key, with only the quantity changed, and keys appear in order of first occurrence |
| Grocery.FoldTotals | src/services/mealPlanService.js:10 | each output quantity equals the independent per-key running total, which rounds after every addition |
| Grocery.FoldRounded | src/services/mealPlanService.js:10 | every output quantity has at most two decimals |
| Grocery.FoldDistinct | src/services/mealPlanService.js:7-14 | when no keys repeat, nothing merges: each line is kept in place with its amount rounded |
| Grocery.ScaleDistinct | src/services/mealPlanService.js:4-15 | a recipe with distinct keys scaled by `factor` has each quantity `round2(quantity * factor)`, in input order |
| Grocery.ScaleIdempotent | src/services/mealPlanService.js:4-15 | a list with distinct keys and two-decimal quantities is a fixed point of `scaleIngredients(list, 1)` |
| Grocery.AggregateTwice | src/services/mealPlanService.js:76 | re-aggregating an aggregated list with factor 1 changes nothing |
| Grocery.KeyCollision | src/services/mealPlanService.js:8 | because the key is a joined string, `("a|b","c")` and `("a","b|c")` are merged into one line |
| MealPlans.ListRecipes | src/services/mealPlanService.js:23-33 | one summary per recipe, in catalog order, carrying the recipe's id, title, description, servings, preparation and cooking times and tags |
| MealPlans.GetRecipe | src/services/mealPlanService.js:35-37 | returns the first recipe with the id, and none exactly when no recipe has it |
| MealPlans.ResolvedServings | src/services/mealPlanService.js:44 | an entry's given non-zero servings win; otherwise the recipe's servings are used, or 2 for an unknown recipe; the result is never 0 |
| MealPlans.NormalizeEntries | src/services/mealPlanService.js:41-45 | every entry keeps its fields, gets its own fresh id and has its servings resolved |
| MealPlans.StartDate | src/services/mealPlanService.js:49 | a given start date is kept; otherwise it is the first 10 characters (the day) of the current ISO timestamp |
| MealPlans.MealPlanService.constructor | src/services/mealPlanService.js:18-21 | the service starts with the given recipes and no plans |
| MealPlans.MealPlanService.GetMealPlan | src/services/mealPlanService.js:59-61 | a plan is found exactly when one is stored under the id |
| MealPlans.MealPlanService.CreateMealPlan | src/services/mealPlanService.js:39-57 | the new plan gets the fresh id, the resolved start date, an empty end date and normalised entries; it is stored under its id and every other plan is untouched |
| MealPlans.MealPlanService.CombineEntries | src/services/mealPlanService.js:67-74 | the loop over entries concatenates each known recipe scaled by `servings / recipe.servings` and skips unknown recipes, which is exactly `Combined` |
| MealPlans.MealPlanService.BuildGroceryList | src/services/mealPlanService.js:63-78 | an unknown plan yields `meal_plan_not_found`; otherwise the result is the combined entries aggregated with factor 1 |
| MealPlans.ContributionKeys | src/services/mealPlanService.js:70-73 | an entry with an unknown recipe contributes no key; otherwise it contributes exactly its recipe's keys |
| MealPlans.CombinedKeys | src/services/mealPlanService.js:69-74 | a key occurs in the combined list exactly when some entry's known recipe has it |
| MealPlans.GroceryListKeys | src/services/mealPlanService.js:63-78 | the grocery list has distinct keys and two-decimal quantities, and holds exactly the keys that some planned recipe supplies |
| MealPlans.DefaultServingsUnscaled | src/services/mealPlanService.js:44 | an entry without servings uses its recipe's own servings, so the scaling factor is 1 and the recipe is not scaled |
| MealPlans.GarlicScenario | tests/api.test.js:118-147 | pasta (3 cloves, serves 2) at 4 servings plus stir-fry (2 cloves, serves 2) at 3 servings gives one garlic line of 9 cloves |
| Retail.FallbackReason.Code | src/services/retailerService.js:68 | fallback reasons are reported as the codes `sku_not_found` and `out_of_stock` |
| Retail.FindStoresByZip | src/services/retailerService.js:22-25 | an empty zipcode finds no stores; otherwise the result is exactly the stores with that zipcode, every occurrence kept, in order |
| Retail.GetStore | src/services/retailerService.js:27-29 | the store found is the first with the id, and none exactly when no store has it |
| Retail.FindProduct | src/services/retailerService.js:54-57 | finds the first item with the SKU in the store's catalog, which is empty for an unknown store, and none exactly when no item has the SKU |
| Retail.StoresForLookup | src/services/retailerService.js:32-34 | with a store id, the lookup is exactly the store with that id, or nothing if it is unknown; without one, it is the zipcode's stores |
| Retail.RetailerService.constructor | src/services/retailerService.js:5-9 | the service starts with the given stores and catalog and no carts |
| Retail.RetailerService.SearchProducts | src/services/retailerService.js:31-52 | the nested loops return exactly `Search`: the matching items of each looked-up store, in store then catalog order, each tagged with its store id |
| Retail.MatchesIff | src/services/retailerService.js:40-45 | an item matches when the query is empty or occurs, case-insensitively, in its name, brand or category |
| Retail.StoreHitsMembers | src/services/retailerService.js:37-48 | one store's hits are exactly its matching items tagged with the store id; with an empty query every item is a hit |
| Retail.SearchResults | src/services/retailerService.js:31-52 | a product is a result exactly when it is a matching item of a looked-up store; a store-id search returns only that store's items and nothing for an unknown store; a search with neither id nor zipcode returns nothing |
| Retail.EligibleItems | src/services/retailerService.js:100-102 | the alternative candidates are exactly the store's in-stock items of the category other than the excluded SKU, every occurrence kept, in catalog order |
| Retail.GenerateAlternatives | src/services/retailerService.js:99-111 | at most three alternatives: the first eligible items, projected to sku, name, price, currency and size |
| Retail.AlternativesEligible | src/services/retailerService.js:99-111 | every alternative comes from an in-stock item of the store in the requested category, never the excluded SKU |
| Retail.RetailerService.ValidateItems | src/services/retailerService.js:59-97 | the loop returns exactly `ValidateAll`: each item in order becomes a validated line or a fallback |
| Retail.ValidateOne | src/services/retailerService.js:63-94 | an unknown SKU gives a `sku_not_found` fallback with same-category alternatives; an out-of-stock product gives an `out_of_stock` fallback that excludes itself; an in-stock product gives a line with the catalog's name, price and currency, with quantity defaulting to 1 and unit to `ea` |
| Retail.ValidateAppend | src/services/retailerService.js:63-96 | validating `a + b` validates `a` and `b` separately and concatenates the lines and the fallbacks |
| Retail.ValidateCounts | src/services/retailerService.js:63-96 | every requested item ends up as exactly one line or exactly one fallback |
| Retail.BuildCartTotals | src/services/retailerService.js:113-116 | the subtotal is the sum of `price * quantity` rounded to two decimals, ties away from zero; the currency is the first line's, or `USD` |
| Retail.SumAppend | src/services/retailerService.js:114 | the raw subtotal of concatenated lines is the sum of the parts |
| Retail.RetailerService.GetCart | src/services/retailerService.js:143-145 | a cart is found exactly when one is stored under the id |
| Retail.RetailerService.CreateCart | src/services/retailerService.js:118-141 | an unknown store yields `store_not_found` and stores nothing; otherwise a draft cart of the validated items, zipcode defaulting to the store's, is stored under the fresh id |
| Retail.RetailerService.AddItems | src/services/retailerService.js:147-159 | an unknown cart yields `cart_not_found`; otherwise the validated lines and fallbacks are appended, totals recomputed, `updatedAt` set, and the cart is stored back |
| Retail.AddedCart | src/services/retailerService.js:153-157 | adding keeps the old lines and fallbacks as a prefix, recomputes the subtotal over all lines, and keeps id, store, zipcode, status and creation time |
| Retail.AddTwice | src/services/retailerService.js:147-159 | adding `a` and then `b` to a cart is the same as adding `a + b` at the later time |
| Retail.CheckoutBase | src/services/retailerService.js:162-163 | the store's handoff domain is used when the store is known and the domain is non-empty; otherwise `https://www.example.com` |
| Retail.CheckoutQuery | src/services/retailerService.js:164 | the query is `cartId=<encoded id>&storeId=<encoded store>` |
| Retail.BuildCheckoutUrls | src/services/retailerService.js:161-169 | the web URL is base + `/checkout?` + query; the deep link is `retailer://checkout?` + query |
| Retail.CheckoutLinks | tests/api.test.js:100-101 | the web URL contains `checkout`, the deep link starts with `retailer://checkout?`, and both end in the query |
| Retail.CheckoutQueryInjective | src/services/retailerService.js:164 | for ASCII ids, different carts or stores never share a checkout query |
| Shopping.SearchTermAlias | src/services/shoppingService.js:1-23 | an ingredient listed in the alias table is searched under its alias (e.g. salt as `sea salt`), any other under its own name |
| Shopping.PickProduct | src/services/shoppingService.js:34-35 | no product exactly when there are no hits; the first in-stock hit when there is one; otherwise the first hit |
| Shopping.MapIngredientToProduct | src/services/shoppingService.js:31-36 | the pick is one of the search hits for the ingredient's search term, and none exactly when the search finds nothing |
| Shopping.PackageCount | src/services/shoppingService.js:56 | the package count is at least 1 |
| Shopping.PackageCountMinimal | src/services/shoppingService.js:56 | the packages cover the quantity, and one package fewer would not (unless the count is the minimum 1) |
| Shopping.CartRequest | src/services/shoppingService.js:54-58 | each cart request asks for the picked SKU, `PackageCount(ingredient quantity, package size)` packages (a whole number, at least one), unit `ea` and no category |
| Shopping.ShoppingService.constructor | src/services/shoppingService.js:26-29 | the service holds the given meal-plan and retailer services |
| Shopping.ShoppingService.ResolveIngredients | src/services/shoppingService.js:44-59 | the ingredient loop returns exactly `Resolve`: each ingredient in order becomes a cart request or an unmatched entry |
| Shopping.ShoppingService.BuildCartFromMealPlan | src/services/shoppingService.js:38-63 | an unknown plan passes `meal_plan_not_found` through with no cart stored; otherwise the grocery list is resolved and passed to `createCart`; an unknown store gives the `store_not_found` error inside the result, with no zipcode and no cart stored; a known store gives the new draft cart, stored in the retailer |
| Shopping.ResolveAppend | src/services/shoppingService.js:47-59 | resolving a list split in two resolves each part and concatenates both the cart requests and the unmatched ingredients, so both keep grocery-list order |
| Shopping.ResolveOne | src/services/shoppingService.js:48-58 | a single ingredient becomes the cart request for its picked product, or is unmatched when nothing was picked |
| Shopping.ResolveCounts | src/services/shoppingService.js:47-59 | every grocery ingredient becomes exactly one cart request or one unmatched entry |
| Shopping.ResolveOrder | src/services/shoppingService.js:47-53 | unmatched ingredients keep their grocery-list order |
| Shopping.ResolveItems | src/services/shoppingService.js:54-58 | every cart request comes from some ingredient and its picked product |
| Shopping.UnmatchedIffNotFound | src/services/shoppingService.js:48-52 | an ingredient is unmatched exactly when the search for its term finds nothing |
| Shopping.KnownStoreSkusFound | src/services/shoppingService.js:48-62 | for a known store id, every SKU the plan asks for comes from that store's catalog, so the cart's fallbacks are all `out_of_stock`, never `sku_not_found` |
| Shopping.OnlyOutOfStock | src/services/retailerService.js:63-83 | when every requested SKU exists in the store, validation produces only `out_of_stock` fallbacks |

## Left out

- Floating point: quantities, prices and factors are exact reals.
  - `toFixed(2)` is modelled as rounding half away from zero.
  - Binary representation errors of IEEE doubles, such as `1.005.toFixed(2)`, are not modelled, and neither is floating-point summation order in cart subtotals.
- `toLowerCase` is modelled on ASCII letters only. Unicode case mapping is not modelled.
- Strings are sequences of Unicode scalar values. Lone UTF-16 surrogates, which `URLSearchParams` replaces by U+FFFD, are not modelled.
- FormEncoding.DecodeEncode: the round trip is proved for ASCII strings only, because non-ASCII characters are escaped through their UTF-8 bytes and decoding those is not modelled.
- Retail.CheckoutQueryInjective: stated for ASCII ids only, as it rests on FormEncoding.DecodeEncode.
- Randomness and clocks become parameters: `randomUUID()` becomes the `planId`, `entryIds` and `cartId` arguments, and `new Date().toISOString()` becomes the `now` argument. One `now` serves both reads in `createMealPlan`.
- The data modules (recipes, stores, catalog) are not part of this model. They are constructor arguments.
- JavaScript dynamic typing:
  - an absent string is modelled as `""`, an absent optional number as `None` or `0.0`;
  - non-numeric `servings`, `quantity` or `packageSize` values are not modelled;
  - prototype keys of the alias table and the catalog object are not modelled.
- Shopping.PackageCountMinimal: stated for positive package sizes only. A zero size is read as 1, as `packageSize || 1` does. A negative size with a non-negative quantity gives the minimum count 1, while a negative size with a negative quantity gives a positive quotient, whose ceiling `PackageCount` still computes.
- Aliasing: `addItems` mutates the stored cart object in place, and callers holding it observe the change. The model replaces the map entry with the updated cart value.
- Spread copies (`{ ...item }`) keep extra properties. They are modelled as one `extra` string map carried along on lines and entries.
- `getAssistantCapabilities` returns a constant description and carries no logic. It is left out.
- Key collisions are kept as the source has them: `Grocery.KeyCollision` shows that `ingredient|unit` keys can merge different (ingredient, unit) pairs.
- The HTTP layer (`server.js`) and the assistant prompts are not part of this model.
- No cart is built from a zipcode alone. When `buildCartFromMealPlan` is given no store id, its product searches use the zipcode's stores, but `createCart` finds no store for the empty id. The `store_not_found` error is then returned inside the result. `Shopping.ShoppingService.BuildCartFromMealPlan` states this as the source behaves.

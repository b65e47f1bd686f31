/** The retailer service: store and product lookup over the store table and
    the per-store catalog, validation of requested SKUs into cart lines and
    fallback records, cart totals, the registry of carts keyed by id, and the
    checkout hand-off links. */
module Retail {
  import opened Wrappers
  import opened Seqs
  import opened Decimal
  import opened Errors
  import opened Text
  import opened FormEncoding

  datatype Store = Store(id: string, name: string, zipcode: string, handoffDomain: string)

  /** A catalog item; `packageSize` is 0 when the item declares none. A search
      result is an item with `storeId` set to the store it was found in. */
  datatype Product = Product(
    sku: string, name: string, brand: string, category: string,
    price: real, currency: string, inStock: bool, packageSize: real, size: string,
    storeId: string)

  /** The catalog: a list of products per store id. */
  type Catalog = map<string, seq<Product>>

  /** A requested cart item. `quantity` 0 and `unit` "" mean "not given";
      `category` is the caller's hint for alternatives. */
  datatype ItemRequest = ItemRequest(sku: string, quantity: real, unit: string, category: Option<string>)

  datatype CartLine = CartLine(
    sku: string, name: string, quantity: real, unit: string, price: real,
    currency: string, storeId: string)

  datatype Alternative = Alternative(sku: string, name: string, price: real, currency: string, size: string)

  datatype FallbackReason = SkuNotFound | OutOfStock {
    function Code(): (code: string)
      ensures |code| > 0
    {
      match this
      case SkuNotFound => "sku_not_found"
      case OutOfStock => "out_of_stock"
    }
  }

  datatype Fallback = Fallback(
    skuRequested: string, reason: FallbackReason, alternatives: seq<Alternative>,
    allowManualEdit: bool)

  datatype Validation = Validation(items: seq<CartLine>, fallbacks: seq<Fallback>)

  datatype Totals = Totals(subtotal: real, currency: string)

  datatype Cart = Cart(
    id: string, storeId: string, zipcode: string, items: seq<CartLine>,
    fallbacks: seq<Fallback>, totals: Totals, status: string, createdAt: string,
    updatedAt: Option<string>)

  datatype CheckoutUrls = CheckoutUrls(webUrl: string, deepLink: string)

  // ---------------------------------------------------------------------
  // Lookup

  /** `findStoresByZip`. */
  function FindStoresByZip(stores: seq<Store>, zipcode: string): (r: seq<Store>)
    ensures zipcode == "" ==> r == []
    ensures zipcode != "" ==> forall s :: s in r <==> s in stores && s.zipcode == zipcode
    ensures zipcode != "" ==> forall s :: multiset(r)[s] == (if s.zipcode == zipcode then multiset(stores)[s] else 0)
    ensures IsSubsequence(r, stores)
  {
    if zipcode == "" then [] else Filter(stores, (s: Store) => s.zipcode == zipcode)
  }

  /** `getStore`: the first store with the id. */
  function GetStore(stores: seq<Store>, id: string): (r: Option<Store>)
    ensures r.Some? ==> r.value in stores && r.value.id == id
    ensures r.None? <==> forall s :: s in stores ==> s.id != id
    ensures r.Some? ==> exists i :: 0 <= i < |stores| && stores[i] == r.value &&
                                  (forall j :: 0 <= j < i ==> stores[j].id != id)
  {
    Find(stores, (s: Store) => s.id == id)
  }

  /** `catalog[storeId] || []`. */
  function Inventory(catalog: Catalog, storeId: string): seq<Product> {
    if storeId in catalog then catalog[storeId] else []
  }

  /** `findProduct`: the first item of the store's inventory with the SKU. */
  function FindProduct(catalog: Catalog, storeId: string, sku: string): (r: Option<Product>)
    ensures r.Some? ==> r.value in Inventory(catalog, storeId) && r.value.sku == sku
    ensures r.None? <==> forall p :: p in Inventory(catalog, storeId) ==> p.sku != sku
    ensures r.Some? ==> exists i :: 0 <= i < |Inventory(catalog, storeId)| && Inventory(catalog, storeId)[i] == r.value &&
                                  (forall j :: 0 <= j < i ==> Inventory(catalog, storeId)[j].sku != sku)
  {
    Find(Inventory(catalog, storeId), (p: Product) => p.sku == sku)
  }

  /** The stores a search looks in: the one named by a non-empty `storeId`
      (none if unknown), otherwise those of the zipcode. */
  function StoresForLookup(stores: seq<Store>, storeId: string, zipcode: string): (r: seq<Store>)
    ensures storeId != "" ==> |r| <= 1 && forall s :: s in r ==> s in stores && s.id == storeId
    ensures storeId != "" && GetStore(stores, storeId).None? ==> r == []
    ensures storeId != "" && GetStore(stores, storeId).Some? ==> r == [GetStore(stores, storeId).value]
    ensures storeId == "" ==> r == FindStoresByZip(stores, zipcode)
  {
    if storeId != "" then
      match GetStore(stores, storeId)
      case Some(s) => [s]
      case None => []
    else FindStoresByZip(stores, zipcode)
  }

  /** The search predicate: an empty query matches everything, otherwise the
      lower-cased query must occur in the lower-cased name, brand or category. */
  predicate Matches(p: Product, query: string) {
    || query == ""
    || Contains(Lower(p.name), Lower(query))
    || Contains(Lower(p.brand), Lower(query))
    || Contains(Lower(p.category), Lower(query))
  }

  /** The hits of one store: its matching items tagged with its id. */
  function StoreHits(items: seq<Product>, storeId: string, query: string): seq<Product>
    decreases |items|
  {
    if items == [] then []
    else
      var last := items[|items| - 1];
      StoreHits(items[..|items| - 1], storeId, query) + (if Matches(last, query) then [last.(storeId := storeId)] else [])
  }

  /** The hits of several stores, store by store. */
  function Hits(lookup: seq<Store>, catalog: Catalog, query: string): seq<Product>
    decreases |lookup|
  {
    if lookup == [] then []
    else
      var last := lookup[|lookup| - 1];
      Hits(lookup[..|lookup| - 1], catalog, query) + StoreHits(Inventory(catalog, last.id), last.id, query)
  }

  lemma StoreHitsPrefix(items: seq<Product>, j: nat, storeId: string, query: string)
    requires j < |items|
    ensures StoreHits(items[..j + 1], storeId, query) ==
      StoreHits(items[..j], storeId, query) + (if Matches(items[j], query) then [items[j].(storeId := storeId)] else [])
  {
    assert items[..j + 1][..j] == items[..j];
  }

  lemma HitsPrefix(lookup: seq<Store>, i: nat, catalog: Catalog, query: string)
    requires i < |lookup|
    ensures Hits(lookup[..i + 1], catalog, query) ==
      Hits(lookup[..i], catalog, query) + StoreHits(Inventory(catalog, lookup[i].id), lookup[i].id, query)
  {
    assert lookup[..i + 1][..i] == lookup[..i];
  }

  /** What `searchProducts` returns. */
  function Search(stores: seq<Store>, catalog: Catalog, query: string, storeId: string, zipcode: string): seq<Product> {
    Hits(StoresForLookup(stores, storeId, zipcode), catalog, query)
  }

  // ---------------------------------------------------------------------
  // Validation

  predicate Eligible(p: Product, category: Option<string>, excludeSku: Option<string>) {
    p.inStock && category == Some(p.category) && excludeSku != Some(p.sku)
  }

  function ToAlternative(p: Product): Alternative {
    Alternative(p.sku, p.name, p.price, p.currency, p.size)
  }

  /** The store's items that may be offered as alternatives, in catalog
      order. */
  function EligibleItems(catalog: Catalog, storeId: string, category: Option<string>, excludeSku: Option<string>)
    : (r: seq<Product>)
    ensures forall p :: p in r <==> p in Inventory(catalog, storeId) && Eligible(p, category, excludeSku)
    ensures forall p :: multiset(r)[p] == (if Eligible(p, category, excludeSku) then multiset(Inventory(catalog, storeId))[p] else 0)
    ensures IsSubsequence(r, Inventory(catalog, storeId))
  {
    Filter(Inventory(catalog, storeId), (p: Product) => Eligible(p, category, excludeSku))
  }

  /** `generateAlternatives`: the first three eligible items of the store's
      inventory. An absent category matches no item. */
  function GenerateAlternatives(catalog: Catalog, storeId: string, category: Option<string>, excludeSku: Option<string>)
    : (r: seq<Alternative>)
    ensures var eligible := EligibleItems(catalog, storeId, category, excludeSku);
      && |r| == (if |eligible| < 3 then |eligible| else 3)
      && forall i :: 0 <= i < |r| ==> r[i] == ToAlternative(eligible[i])
  {
    var eligible := EligibleItems(catalog, storeId, category, excludeSku);
    var first := if |eligible| <= 3 then eligible else eligible[..3];
    seq(|first|, i requires 0 <= i < |first| => ToAlternative(first[i]))
  }

  /** How one requested item is validated. */
  datatype Outcome = Accepted(line: CartLine) | Rejected(fallback: Fallback)

  function Validate(catalog: Catalog, storeId: string, item: ItemRequest): Outcome {
    match FindProduct(catalog, storeId, item.sku)
    case None =>
      Rejected(Fallback(item.sku, SkuNotFound, GenerateAlternatives(catalog, storeId, item.category, None), true))
    case Some(product) =>
      if !product.inStock then
        Rejected(Fallback(item.sku, OutOfStock,
          GenerateAlternatives(catalog, storeId, Some(product.category), Some(product.sku)), true))
      else
        Accepted(CartLine(product.sku, product.name,
          if item.quantity != 0.0 then item.quantity else 1.0,
          if item.unit != "" then item.unit else "ea",
          product.price, product.currency, storeId))
  }

  function AddOutcome(v: Validation, o: Outcome): Validation {
    match o
    case Accepted(line) => v.(items := v.items + [line])
    case Rejected(fallback) => v.(fallbacks := v.fallbacks + [fallback])
  }

  lemma AddOutcomeFallbacks(v: Validation, o: Outcome)
    ensures forall f :: f in AddOutcome(v, o).fallbacks ==> f in v.fallbacks || (o.Rejected? && f == o.fallback)
  {
  }

  /** What `validateItems` returns: the outcomes in request order, lines and
      fallbacks kept apart. */
  function ValidateAll(catalog: Catalog, storeId: string, items: seq<ItemRequest>): Validation
    decreases |items|
  {
    if items == [] then Validation([], [])
    else AddOutcome(ValidateAll(catalog, storeId, items[..|items| - 1]), Validate(catalog, storeId, items[|items| - 1]))
  }

  // ---------------------------------------------------------------------
  // Totals

  /** Σ price * quantity, left to right from 0. */
  function Sum(lines: seq<CartLine>): real
    decreases |lines|
  {
    if lines == [] then 0.0
    else Sum(lines[..|lines| - 1]) + lines[|lines| - 1].price * lines[|lines| - 1].quantity
  }

  /** `buildCartTotals`. */
  function BuildCartTotals(lines: seq<CartLine>): (t: Totals)
    ensures IsTwoDecimal(t.subtotal) && Sum(lines) - 0.005 <= t.subtotal <= Sum(lines) + 0.005
    ensures Sum(lines) >= 0.0 ==> Sum(lines) - 0.005 < t.subtotal
    ensures Sum(lines) < 0.0 ==> t.subtotal < Sum(lines) + 0.005
    ensures lines == [] ==> t == Totals(0.0, "USD")
    ensures lines != [] && lines[0].currency != "" ==> t.currency == lines[0].currency
    ensures lines != [] && lines[0].currency == "" ==> t.currency == "USD"
  {
    Round2Fixes(0.0);
    Totals(Round2(Sum(lines)), if lines != [] && lines[0].currency != "" then lines[0].currency else "USD")
  }

  // ---------------------------------------------------------------------
  // Carts

  /** The cart `createCart` builds for a known store. */
  function NewCart(store: Store, zipcode: string, v: Validation, cartId: string, now: string): Cart {
    Cart(cartId, store.id, if zipcode != "" then zipcode else store.zipcode,
         v.items, v.fallbacks, BuildCartTotals(v.items), "draft", now, None)
  }

  /** The cart after `addItems`: new lines and fallbacks appended, totals
      recomputed over all lines. */
  function WithAdded(cart: Cart, v: Validation, now: string): Cart {
    var items := cart.items + v.items;
    cart.(items := items, fallbacks := cart.fallbacks + v.fallbacks,
          totals := BuildCartTotals(items), updatedAt := Some(now))
  }

  /** `store?.handoffDomain || 'https://www.example.com'`. */
  function CheckoutBase(stores: seq<Store>, storeId: string): (base: string)
    ensures GetStore(stores, storeId).Some? && GetStore(stores, storeId).value.handoffDomain != "" ==>
      base == GetStore(stores, storeId).value.handoffDomain
    ensures GetStore(stores, storeId).None? || GetStore(stores, storeId).value.handoffDomain == "" ==>
      base == "https://www.example.com"
  {
    match GetStore(stores, storeId)
    case Some(s) => if s.handoffDomain != "" then s.handoffDomain else "https://www.example.com"
    case None => "https://www.example.com"
  }

  /** The query of the checkout links, `cartId=…&storeId=…`. */
  function CheckoutQuery(cartId: string, storeId: string): (q: string)
    ensures q == "cartId=" + Encode(cartId) + "&storeId=" + Encode(storeId)
  {
    CartIdUnencoded();
    StoreIdUnencoded();
    SerializeTwo(("cartId", cartId), ("storeId", storeId));
    QueryLiterals();
    RegroupPairs("cartId", "=", Encode(cartId), "&", "storeId", Encode(storeId));
    Serialize([("cartId", cartId), ("storeId", storeId)])
  }

  lemma CartIdUnencoded()
    ensures Encode("cartId") == "cartId"
  {
    EncodeUnreserved("cartId");
  }

  lemma StoreIdUnencoded()
    ensures Encode("storeId") == "storeId"
  {
    EncodeUnreserved("storeId");
  }

  lemma QueryLiterals()
    ensures "cartId" + "=" == "cartId=" && "&" + "storeId" + "=" == "&storeId="
  {
  }

  lemma RegroupPairs(a: string, eq: string, x: string, amp: string, b: string, y: string)
    ensures a + eq + x + amp + b + eq + y == (a + eq) + x + (amp + b + eq) + y
  {
  }

  /** `buildCheckoutUrls`: the web link on the store's hand-off domain and the
      app deep link, both carrying the cart and store ids. */
  function BuildCheckoutUrls(stores: seq<Store>, cart: Cart): (r: CheckoutUrls)
    ensures r.webUrl == CheckoutBase(stores, cart.storeId) + "/checkout?" + CheckoutQuery(cart.id, cart.storeId)
    ensures r.deepLink == "retailer://checkout?" + CheckoutQuery(cart.id, cart.storeId)
  {
    var query := CheckoutQuery(cart.id, cart.storeId);
    CheckoutUrls(CheckoutBase(stores, cart.storeId) + "/checkout?" + query, "retailer://checkout?" + query)
  }

  class RetailerService {
    const stores: seq<Store>
    const catalog: Catalog
    var carts: map<string, Cart>

    constructor(stores: seq<Store>, catalog: Catalog)
      ensures this.stores == stores && this.catalog == catalog && carts == map[]
    {
      this.stores := stores;
      this.catalog := catalog;
      carts := map[];
    }

    /** `getCart`. */
    function GetCart(cartId: string): (r: Option<Cart>)
      reads this
      ensures r.Some? <==> cartId in carts
      ensures r.Some? ==> r.value == carts[cartId]
    {
      if cartId in carts then Some(carts[cartId]) else None
    }

    /** `searchProducts`: every store to look in, every item of its
        inventory, matching items tagged with the store id. */
    method SearchProducts(query: string, storeId: string, zipcode: string) returns (results: seq<Product>)
      ensures results == Search(stores, catalog, query, storeId, zipcode)
    {
      var lookup := StoresForLookup(stores, storeId, zipcode);
      results := [];
      var i := 0;
      while i < |lookup|
        invariant 0 <= i <= |lookup|
        invariant results == Hits(lookup[..i], catalog, query)
      {
        var store := lookup[i];
        var items := Inventory(catalog, store.id);
        ghost var before := results;
        var j := 0;
        while j < |items|
          invariant 0 <= j <= |items|
          invariant results == before + StoreHits(items[..j], store.id, query)
        {
          var item := items[j];
          if Matches(item, query) {
            results := results + [item.(storeId := store.id)];
          }
          StoreHitsPrefix(items, j, store.id, query);
          j := j + 1;
        }
        assert items[..j] == items;
        HitsPrefix(lookup, i, catalog, query);
        i := i + 1;
      }
      assert lookup[..i] == lookup;
    }

    /** `validateItems`: each requested item in turn becomes a cart line or
        a fallback record. */
    method ValidateItems(storeId: string, items: seq<ItemRequest>) returns (v: Validation)
      ensures v == ValidateAll(catalog, storeId, items)
    {
      var validated: seq<CartLine> := [];
      var fallbacks: seq<Fallback> := [];
      var i := 0;
      while i < |items|
        invariant 0 <= i <= |items|
        invariant Validation(validated, fallbacks) == ValidateAll(catalog, storeId, items[..i])
      {
        var item := items[i];
        var product := FindProduct(catalog, storeId, item.sku);
        if product.None? {
          fallbacks := fallbacks + [Fallback(item.sku, SkuNotFound,
            GenerateAlternatives(catalog, storeId, item.category, None), true)];
        } else if !product.value.inStock {
          fallbacks := fallbacks + [Fallback(item.sku, OutOfStock,
            GenerateAlternatives(catalog, storeId, Some(product.value.category), Some(product.value.sku)), true)];
        } else {
          validated := validated + [CartLine(product.value.sku, product.value.name,
            if item.quantity != 0.0 then item.quantity else 1.0,
            if item.unit != "" then item.unit else "ea",
            product.value.price, product.value.currency, storeId)];
        }
        assert items[..i + 1][..i] == items[..i];
        i := i + 1;
      }
      assert items[..i] == items;
      v := Validation(validated, fallbacks);
    }

    /** `createCart`, with the fresh cart id and the clock as parameters. */
    method CreateCart(storeId: string, zipcode: string, items: seq<ItemRequest>, cartId: string, now: string)
      returns (r: Result<Cart, ServiceError>)
      modifies this
      ensures GetStore(stores, storeId).None? ==> r == Failure(StoreNotFound) && carts == old(carts)
      ensures GetStore(stores, storeId).Some? ==>
        && r == Success(NewCart(GetStore(stores, storeId).value, zipcode, ValidateAll(catalog, storeId, items), cartId, now))
        && carts == old(carts)[cartId := r.value]
    {
      var store := GetStore(stores, storeId);
      if store.None? {
        return Failure(StoreNotFound);
      }
      var v := ValidateItems(storeId, items);
      var totals := BuildCartTotals(v.items);
      var cart := Cart(cartId, storeId, if zipcode != "" then zipcode else store.value.zipcode,
                       v.items, v.fallbacks, totals, "draft", now, None);
      carts := carts[cartId := cart];
      r := Success(cart);
    }

    /** `addItems`, with the clock as a parameter. */
    method AddItems(cartId: string, items: seq<ItemRequest>, now: string) returns (r: Result<Cart, ServiceError>)
      modifies this
      ensures cartId !in old(carts) ==> r == Failure(CartNotFound) && carts == old(carts)
      ensures cartId in old(carts) ==>
        && r == Success(WithAdded(old(carts)[cartId], ValidateAll(catalog, old(carts)[cartId].storeId, items), now))
        && carts == old(carts)[cartId := r.value]
    {
      var found := GetCart(cartId);
      if found.None? {
        return Failure(CartNotFound);
      }
      var cart := found.value;
      var v := ValidateItems(cart.storeId, items);
      cart := cart.(items := cart.items + v.items);
      cart := cart.(fallbacks := cart.fallbacks + v.fallbacks);
      cart := cart.(totals := BuildCartTotals(cart.items));
      cart := cart.(updatedAt := Some(now));
      carts := carts[cartId := cart];
      r := Success(cart);
    }
  }

  // ---------------------------------------------------------------------
  // Properties of search

  /** A product matches iff the query is empty or, lower-cased, occurs in
      the lower-cased name, brand or category. */
  lemma MatchesIff(p: Product, query: string)
    ensures Matches(p, query) <==>
      || query == ""
      || (exists i: nat :: OccursAt(Lower(p.name), Lower(query), i))
      || (exists i: nat :: OccursAt(Lower(p.brand), Lower(query), i))
      || (exists i: nat :: OccursAt(Lower(p.category), Lower(query), i))
  {
    ContainsIff(Lower(p.name), Lower(query));
    ContainsIff(Lower(p.brand), Lower(query));
    ContainsIff(Lower(p.category), Lower(query));
  }

  /** The hits of a store are its matching items, tagged, in catalog order. */
  lemma {:induction false} StoreHitsMembers(items: seq<Product>, storeId: string, query: string)
    ensures |StoreHits(items, storeId, query)| <= |items|
    ensures forall h :: h in StoreHits(items, storeId, query) <==>
      exists p :: p in items && Matches(p, query) && h == p.(storeId := storeId)
    ensures query == "" ==> |StoreHits(items, storeId, query)| == |items|
  {
    if items != [] {
      var n := |items| - 1;
      StoreHitsMembers(items[..n], storeId, query);
      assert items == items[..n] + [items[n]];
      assert forall p :: p in items <==> p in items[..n] || p == items[n];
    }
  }

  lemma {:induction false} HitsMembers(lookup: seq<Store>, catalog: Catalog, query: string)
    ensures forall h :: h in Hits(lookup, catalog, query) <==>
      exists s, p :: s in lookup && p in Inventory(catalog, s.id) && Matches(p, query) && h == p.(storeId := s.id)
  {
    if lookup != [] {
      var n := |lookup| - 1;
      var last := lookup[n];
      HitsMembers(lookup[..n], catalog, query);
      StoreHitsMembers(Inventory(catalog, last.id), last.id, query);
      assert lookup == lookup[..n] + [last];
      assert forall s :: s in lookup <==> s in lookup[..n] || s == last;
    }
  }

  /** `searchProducts` finds exactly the matching items of the stores it
      looks in, each tagged with its store; with a store id it looks in that
      store only, and an unknown store id finds nothing. */
  lemma SearchResults(stores: seq<Store>, catalog: Catalog, query: string, storeId: string, zipcode: string)
    ensures forall h :: h in Search(stores, catalog, query, storeId, zipcode) <==>
      exists s, p :: s in StoresForLookup(stores, storeId, zipcode) && p in Inventory(catalog, s.id) &&
        Matches(p, query) && h == p.(storeId := s.id)
    ensures storeId != "" ==> forall h :: h in Search(stores, catalog, query, storeId, zipcode) ==> h.storeId == storeId
    ensures storeId != "" && GetStore(stores, storeId).None? ==> Search(stores, catalog, query, storeId, zipcode) == []
    ensures storeId == "" && zipcode == "" ==> Search(stores, catalog, query, storeId, zipcode) == []
  {
    HitsMembers(StoresForLookup(stores, storeId, zipcode), catalog, query);
  }

  // ---------------------------------------------------------------------
  // Properties of validation

  /** Every alternative is an in-stock item of the store in the requested
      category, other than the excluded SKU. */
  lemma AlternativesEligible(catalog: Catalog, storeId: string, category: Option<string>, excludeSku: Option<string>)
    ensures forall a :: a in GenerateAlternatives(catalog, storeId, category, excludeSku) ==>
      exists p :: p in Inventory(catalog, storeId) && p.inStock && category == Some(p.category) &&
        excludeSku != Some(p.sku) && a == ToAlternative(p)
  {
    var r := GenerateAlternatives(catalog, storeId, category, excludeSku);
    var eligible := EligibleItems(catalog, storeId, category, excludeSku);
    forall a | a in r
      ensures exists p :: (p in Inventory(catalog, storeId) && p.inStock && category == Some(p.category) &&
                           excludeSku != Some(p.sku) && a == ToAlternative(p))
    {
      var i :| 0 <= i < |r| && r[i] == a;
      assert eligible[i] in eligible;
    }
  }

  /** One requested item: an unknown SKU and an out-of-stock product give a
      fallback with that reason, anything else a line with quantity 1 and
      unit `ea` by default, priced from the catalog. */
  lemma ValidateOne(catalog: Catalog, storeId: string, item: ItemRequest)
    ensures var v := ValidateAll(catalog, storeId, [item]);
      var product := FindProduct(catalog, storeId, item.sku);
      && (product.None? ==>
            v == Validation([], [Fallback(item.sku, SkuNotFound, GenerateAlternatives(catalog, storeId, item.category, None), true)]))
      && (product.Some? && !product.value.inStock ==>
            v == Validation([], [Fallback(item.sku, OutOfStock,
              GenerateAlternatives(catalog, storeId, Some(product.value.category), Some(product.value.sku)), true)]))
      && (product.Some? && product.value.inStock ==>
            && v.fallbacks == [] && |v.items| == 1
            && v.items[0].sku == item.sku && v.items[0].name == product.value.name && v.items[0].storeId == storeId
            && v.items[0].price == product.value.price && v.items[0].currency == product.value.currency
            && v.items[0].quantity == (if item.quantity != 0.0 then item.quantity else 1.0)
            && v.items[0].unit == (if item.unit != "" then item.unit else "ea"))
  {
    assert [item][..0] == [];
  }

  lemma AddOutcomeAppend(u: Validation, w: Validation, o: Outcome)
    ensures AddOutcome(Validation(u.items + w.items, u.fallbacks + w.fallbacks), o) ==
      Validation(u.items + AddOutcome(w, o).items, u.fallbacks + AddOutcome(w, o).fallbacks)
  {
    match o
    case Accepted(line) =>
      assert u.items + w.items + [line] == u.items + (w.items + [line]);
    case Rejected(fallback) =>
      assert u.fallbacks + w.fallbacks + [fallback] == u.fallbacks + (w.fallbacks + [fallback]);
  }

  lemma ValidateAllSnoc(catalog: Catalog, storeId: string, items: seq<ItemRequest>, item: ItemRequest)
    ensures ValidateAll(catalog, storeId, items + [item]) ==
      AddOutcome(ValidateAll(catalog, storeId, items), Validate(catalog, storeId, item))
  {
    assert (items + [item])[..|items|] == items;
  }

  /** Validation distributes over concatenation: each request lands in
      exactly one of the two lists, and both keep request order. */
  lemma {:induction false} ValidateAppend(catalog: Catalog, storeId: string, a: seq<ItemRequest>, b: seq<ItemRequest>)
    ensures ValidateAll(catalog, storeId, a + b) ==
      Validation(ValidateAll(catalog, storeId, a).items + ValidateAll(catalog, storeId, b).items,
                 ValidateAll(catalog, storeId, a).fallbacks + ValidateAll(catalog, storeId, b).fallbacks)
  {
    var va := ValidateAll(catalog, storeId, a);
    if b == [] {
      assert a + b == a;
      assert va.items + [] == va.items && va.fallbacks + [] == va.fallbacks;
    } else {
      var n := |b| - 1;
      var init, last := b[..n], b[n];
      ValidateAppend(catalog, storeId, a, init);
      assert a + b == (a + init) + [last] && b == init + [last];
      ValidateAllSnoc(catalog, storeId, a + init, last);
      ValidateAllSnoc(catalog, storeId, init, last);
      AddOutcomeAppend(va, ValidateAll(catalog, storeId, init), Validate(catalog, storeId, last));
    }
  }

  /** Every requested item is accounted for exactly once. */
  lemma {:induction false} ValidateCounts(catalog: Catalog, storeId: string, items: seq<ItemRequest>)
    ensures |ValidateAll(catalog, storeId, items).items| + |ValidateAll(catalog, storeId, items).fallbacks| == |items|
  {
    if items != [] {
      ValidateCounts(catalog, storeId, items[..|items| - 1]);
    }
  }

  // ---------------------------------------------------------------------
  // Properties of totals and carts

  lemma {:induction false} SumAppend(a: seq<CartLine>, b: seq<CartLine>)
    ensures Sum(a + b) == Sum(a) + Sum(b)
  {
    if b == [] {
      assert a + b == a;
    } else {
      var n := |b| - 1;
      SumAppend(a, b[..n]);
      assert (a + b)[..|a + b| - 1] == a + b[..n];
      assert (a + b)[|a + b| - 1] == b[n];
    }
  }

  /** `addItems` keeps the old lines and fallbacks as a prefix, and its
      subtotal is the rounded sum of the old and the new lines' amounts. */
  lemma AddedCart(cart: Cart, v: Validation, now: string)
    ensures var c := WithAdded(cart, v, now);
      && c.items[..|cart.items|] == cart.items && c.items[|cart.items|..] == v.items
      && c.fallbacks[..|cart.fallbacks|] == cart.fallbacks && c.fallbacks[|cart.fallbacks|..] == v.fallbacks
      && c.totals.subtotal == Round2(Sum(cart.items) + Sum(v.items))
      && (cart.items != [] ==> c.totals == BuildCartTotals(cart.items).(subtotal := c.totals.subtotal))
      && c.id == cart.id && c.storeId == cart.storeId && c.zipcode == cart.zipcode
      && c.status == cart.status && c.createdAt == cart.createdAt
  {
    SumAppend(cart.items, v.items);
    var items := cart.items + v.items;
    assert cart.items != [] ==> items[0] == cart.items[0];
  }

  /** Two `addItems` calls on a cart leave it as one call with both batches. */
  lemma AddTwice(catalog: Catalog, cart: Cart, a: seq<ItemRequest>, b: seq<ItemRequest>, t1: string, t2: string)
    ensures WithAdded(WithAdded(cart, ValidateAll(catalog, cart.storeId, a), t1), ValidateAll(catalog, cart.storeId, b), t2)
         == WithAdded(cart, ValidateAll(catalog, cart.storeId, a + b), t2)
  {
    ValidateAppend(catalog, cart.storeId, a, b);
    var va, vb := ValidateAll(catalog, cart.storeId, a), ValidateAll(catalog, cart.storeId, b);
    assert cart.items + va.items + vb.items == cart.items + (va.items + vb.items);
    assert cart.fallbacks + va.fallbacks + vb.fallbacks == cart.fallbacks + (va.fallbacks + vb.fallbacks);
  }

  /** The web link contains `checkout`, the deep link starts with
      `retailer://checkout?`, and both carry the same query. */
  lemma CheckoutLinks(stores: seq<Store>, cart: Cart)
    ensures Contains(BuildCheckoutUrls(stores, cart).webUrl, "checkout")
    ensures "retailer://checkout?" <= BuildCheckoutUrls(stores, cart).deepLink
    ensures var q := CheckoutQuery(cart.id, cart.storeId);
      BuildCheckoutUrls(stores, cart).webUrl[|BuildCheckoutUrls(stores, cart).webUrl| - |q|..] == q &&
      BuildCheckoutUrls(stores, cart).deepLink[|"retailer://checkout?"|..] == q
  {
    var base := CheckoutBase(stores, cart.storeId);
    var r := BuildCheckoutUrls(stores, cart);
    var q := CheckoutQuery(cart.id, cart.storeId);
    CheckoutLiterals();
    LinkParts(base, "/", "checkout", "?", q);
    LinkParts("", "retailer://", "checkout", "?", q);
    assert r.deepLink == "" + ("retailer://" + "checkout" + "?") + q;
  }

  lemma CheckoutLiterals()
    ensures "/checkout?" == "/" + "checkout" + "?"
    ensures "retailer://checkout?" == "retailer://" + "checkout" + "?"
  {
  }

  lemma LinkParts(base: string, sep: string, path: string, mark: string, q: string)
    ensures var w := base + (sep + path + mark) + q;
      Contains(w, path) && base + (sep + path + mark) <= w && w[|w| - |q|..] == q
  {
    var w := base + (sep + path + mark) + q;
    assert w == (base + sep) + path + (mark + q);
    ContainsInfix(base + sep, path, mark + q);
  }

  lemma CheckoutQueryParts(id1: string, store1: string, id2: string, store2: string)
    requires CheckoutQuery(id1, store1) == CheckoutQuery(id2, store2)
    ensures Encode(id1) == Encode(id2) && Encode(store1) == Encode(store2)
  {
    TwoFieldsEqual("cartId=", Encode(id1), "&storeId=", Encode(store1), Encode(id2), Encode(store2), '&');
  }

  /** The query names the cart and the store unambiguously: for ASCII ids,
      equal queries mean equal ids. */
  lemma CheckoutQueryInjective(id1: string, store1: string, id2: string, store2: string)
    requires IsAscii(id1) && IsAscii(store1) && IsAscii(id2) && IsAscii(store2)
    requires CheckoutQuery(id1, store1) == CheckoutQuery(id2, store2)
    ensures id1 == id2 && store1 == store2
  {
    CheckoutQueryParts(id1, store1, id2, store2);
    DecodeEncode(id1);
    DecodeEncode(id2);
    DecodeEncode(store1);
    DecodeEncode(store2);
  }
}

/** `contexts/AppContext.js`: the live cart store of `CartProvider`, with its
    discount-aware totals, and the product store of `ProductsProvider` with its
    derived catalog views. The store matches entries by `===` on add, update
    and lookup, but by `String(id)` on removal. */
module AppContext {
  import opened Options
  import opened Sequences
  import opened Catalog
  import opened CartUtils

  datatype PaymentType = Cash | Card

  /** An entry's id as `===` sees it. */
  function ItemId(item: CartItem): Id {
    item.product.id
  }

  /** The test `item.id === productId`. */
  function IdIs(productId: Id): CartItem -> bool {
    (it: CartItem) => it.product.id == productId
  }

  /** `product.quantity || 1`, where `0` stands for an absent quantity. */
  function AddAmount(requested: int): int {
    if requested != 0 then requested else 1
  }

  /** No entry is discounted by more than 100%. */
  predicate DiscountsAtMost100(items: seq<CartItem>) {
    forall i :: 0 <= i < |items| ==> items[i].product.descuento <= 100.0
  }

  /** Scaling by a non-negative quantity keeps `0 <= a <= b`. */
  lemma ScaleBounds(a: real, b: real, q: real)
    ensures 0.0 <= a <= b && 0.0 <= q ==> 0.0 <= a * q <= b * q
  {
  }

  /** One line at its discounted price; the per-unit price is the formula of
      `calculateDiscountedPrice`. A valid entry discounted by at most 100% costs
      between zero and its undiscounted amount. */
  function LineCost(item: CartItem): (r: real)
    ensures ValidateCartItem(item) && item.product.descuento <= 100.0 ==> 0.0 <= r <= LineTotal(item)
  {
    var unit := CalculateDiscountedPrice(item.product.precio, item.product.descuento);
    ScaleBounds(unit, item.product.precio, item.quantity as real);
    unit * item.quantity as real
  }

  /** `getTotalCost`: every line at its discounted price. For valid entries
      discounted by at most 100%, the cost is between zero and the undiscounted
      total. */
  function TotalCost(items: seq<CartItem>): (r: real)
    ensures AllValid(items) && DiscountsAtMost100(items) ==> 0.0 <= r <= CalculateCartTotal(items)
  {
    if items == [] then 0.0 else LineCost(items[0]) + TotalCost(items[1..])
  }

  /** What one line saves: `price * (discount / 100) * quantity` when the
      discount is positive. A valid entry never saves a negative amount. */
  function LineSavings(item: CartItem): (r: real)
    ensures ValidateCartItem(item) ==> r >= 0.0
  {
    if item.product.descuento > 0.0 then
      var rate := item.product.precio * (item.product.descuento / 100.0);
      assert item.product.precio >= 0.0 ==> rate >= 0.0;
      rate * item.quantity as real
    else 0.0
  }

  /** `getTotalSavings`. A cart of valid entries saves a non-negative amount. */
  function TotalSavings(items: seq<CartItem>): (r: real)
    ensures AllValid(items) ==> r >= 0.0
  {
    if items == [] then 0.0 else LineSavings(items[0]) + TotalSavings(items[1..])
  }

  lemma LineCostPlusSavings(item: CartItem)
    ensures LineCost(item) + LineSavings(item) == LineTotal(item)
  {
    var p, d, q := item.product.precio, item.product.descuento, item.quantity as real;
    if d > 0.0 {
      calc {
        p * (1.0 - d / 100.0) * q + p * (d / 100.0) * q;
        p * q * ((1.0 - d / 100.0) + d / 100.0);
        p * q;
      }
    }
  }

  /** In exact arithmetic the discounted total plus the savings is the
      undiscounted total that `getCartSummary` calls `originalTotal`. */
  lemma {:induction false} CostPlusSavings(items: seq<CartItem>)
    ensures TotalCost(items) + TotalSavings(items) == CalculateCartTotal(items)
  {
    if items != [] {
      LineCostPlusSavings(items[0]);
      CostPlusSavings(items[1..]);
      assert TotalCost(items) == LineCost(items[0]) + TotalCost(items[1..]);
      assert TotalSavings(items) == LineSavings(items[0]) + TotalSavings(items[1..]);
      assert CalculateCartTotal(items) == LineTotal(items[0]) + CalculateCartTotal(items[1..]);
    }
  }

  /** Without a positive discount there is nothing saved and the cost is the
      undiscounted total. */
  lemma {:induction false} NoDiscountNoSavings(items: seq<CartItem>)
    requires forall i :: 0 <= i < |items| ==> items[i].product.descuento <= 0.0
    ensures TotalSavings(items) == 0.0
    ensures TotalCost(items) == CalculateCartTotal(items)
  {
    if items != [] {
      assert forall i :: 1 <= i < |items| ==> items[1..][i - 1] == items[i];
      NoDiscountNoSavings(items[1..]);
      CostPlusSavings(items);
    }
  }

  /** One entry with price 100, discount 20 and quantity 2 costs 160, saves 40
      and would have cost 200. */
  lemma CostSavingsExample()
    ensures var p := Product(StrId("1"), "Producto", "", 100.0, "", "", "", true, false,
                             false, false, false, false, 0, 20.0, "", "", false, false);
            var cart := [CartItem(p, 2)];
            TotalCost(cart) == 160.0 && TotalSavings(cart) == 40.0 && CalculateCartTotal(cart) == 200.0
  {
  }

  /** `cart.some(item => item.id === productId)`. */
  predicate InCart(items: seq<CartItem>, productId: Id) {
    HasMatch(items, IdIs(productId))
  }

  /** The quantity of the first entry with id `=== productId`, or 0. */
  function QuantityOf(items: seq<CartItem>, productId: Id): (q: int)
    ensures !InCart(items, productId) ==> q == 0
    ensures InCart(items, productId) ==>
              exists k :: 0 <= k < |items| && items[k].product.id == productId && q == items[k].quantity &&
                          forall j :: 0 <= j < k ==> items[j].product.id != productId
  {
    var item := FindWhere(items, IdIs(productId));
    if item.Some? then item.value.quantity else 0
  }

  /** With `===`-unique ids, the quantity of a present id is that of its only entry. */
  lemma QuantityOfUnique(items: seq<CartItem>, productId: Id, k: int)
    requires UniqueBy(items, ItemId)
    requires 0 <= k < |items| && items[k].product.id == productId
    ensures QuantityOf(items, productId) == items[k].quantity
  {
  }

  /** Two carts that hold the same products in the same places agree on
      uniqueness of ids. */
  lemma SameProductsSameIds(a: seq<CartItem>, b: seq<CartItem>)
    requires |a| == |b| && forall i :: 0 <= i < |a| ==> a[i].product == b[i].product
    ensures UniqueBy(a, ItemId) <==> UniqueBy(b, ItemId)
    ensures forall id :: InCart(a, id) <==> InCart(b, id)
  {
    assert forall i :: 0 <= i < |a| ==> ItemId(a[i]) == ItemId(b[i]);
    forall id ensures InCart(a, id) <==> InCart(b, id) {
      assert forall i :: 0 <= i < |a| ==> (IdIs(id)(a[i]) <==> IdIs(id)(b[i]));
    }
  }

  /** Growing the entry of a present id keeps ids unique, adds `amount` to that
      id's quantity and to the item count. */
  lemma AddToExistingEntry(items: seq<CartItem>, productId: Id, amount: int)
    requires UniqueBy(items, ItemId) && InCart(items, productId)
    ensures var r := AddQuantityWhere(items, IdIs(productId), amount);
            && UniqueBy(r, ItemId)
            && InCart(r, productId)
            && QuantityOf(r, productId) == QuantityOf(items, productId) + amount
            && CalculateCartItemCount(r) == CalculateCartItemCount(items) + amount
  {
    var matches := IdIs(productId);
    var r := AddQuantityWhere(items, matches, amount);
    assert forall i :: 0 <= i < |items| ==> r[i].product == items[i].product;
    SameProductsSameIds(items, r);
    forall i, j | 0 <= i < j < |items| && matches(items[i]) ensures !matches(items[j]) {
      assert ItemId(items[i]) != ItemId(items[j]);
    }
    SingleMatchCount(items, matches);
    AddQuantityCount(items, matches, amount);
    var k :| 0 <= k < |items| && matches(items[k]);
    assert r[k].quantity == items[k].quantity + amount;
    QuantityOfUnique(items, productId, k);
    QuantityOfUnique(r, productId, k);
  }

  /** Appending a product whose id is absent keeps ids unique, makes the id
      present with quantity `amount`, and adds `amount` to the item count. */
  lemma AppendNewEntry(items: seq<CartItem>, product: Product, amount: int)
    requires UniqueBy(items, ItemId) && !InCart(items, product.id)
    ensures var r := items + [CartItem(product, amount)];
            && UniqueBy(r, ItemId)
            && InCart(r, product.id)
            && QuantityOf(items, product.id) == 0
            && QuantityOf(r, product.id) == amount
            && CalculateCartItemCount(r) == CalculateCartItemCount(items) + amount
  {
    var r := items + [CartItem(product, amount)];
    TotalsAppend(items, [CartItem(product, amount)]);
    assert forall i :: 0 <= i < |items| ==> r[i] == items[i] && items[i].product.id != product.id;
    assert r[|items|].product.id == product.id;
    QuantityOfUnique(r, product.id, |items|);
  }

  datatype StoreSummary = StoreSummary(
    items: seq<CartItem>,
    totalItems: int,
    totalCost: real,
    totalSavings: real,
    originalTotal: real,
    uniqueProducts: nat,
    isEmpty: bool,
    hasDiscounts: bool)

  /** The state of `CartProvider`: the `cart` and `paymentType` cells. */
  class CartStore {
    var cart: seq<CartItem>
    var paymentType: PaymentType

    /** No two entries have `===` ids; every mutator keeps this. */
    ghost predicate Valid()
      reads this
    {
      UniqueBy(cart, ItemId)
    }

    constructor ()
      ensures cart == [] && paymentType == Cash
      ensures Valid()
    {
      cart := [];
      paymentType := Cash;
    }

    /** `isInCart`. */
    function IsInCart(productId: Id): (b: bool)
      reads this
      ensures b <==> exists i :: 0 <= i < |cart| && cart[i].product.id == productId
    {
      InCart(cart, productId)
    }

    /** `getProductQuantity`. */
    function GetProductQuantity(productId: Id): (q: int)
      reads this
      ensures !IsInCart(productId) ==> q == 0
      ensures IsInCart(productId) ==> exists k :: 0 <= k < |cart| && cart[k].product.id == productId && q == cart[k].quantity
    {
      QuantityOf(cart, productId)
    }

    /** `getCartSummary`. */
    function GetCartSummary(): (s: StoreSummary)
      reads this
      ensures s.items == cart && s.uniqueProducts == |cart|
      ensures s.isEmpty <==> cart == []
      ensures s.hasDiscounts <==> s.totalSavings > 0.0
      ensures s.totalCost + s.totalSavings == s.originalTotal
      ensures s.totalItems == CalculateCartItemCount(cart) && s.originalTotal == CalculateCartTotal(cart)
      ensures s.totalCost == TotalCost(cart) && s.totalSavings == TotalSavings(cart)
    {
      CostPlusSavings(cart);
      var savings := TotalSavings(cart);
      StoreSummary(cart, CalculateCartItemCount(cart), TotalCost(cart), savings, CalculateCartTotal(cart),
                   |cart|, |cart| == 0, savings > 0.0)
    }

    /** `addToCart(product)`: an entry with the same id (`===`) grows by
        `product.quantity || 1`; otherwise the product is appended with that
        quantity. `requested` is `product.quantity`, 0 when absent. */
    method AddToCart(product: Product, requested: int)
      requires Valid()
      modifies this
      ensures Valid()
      ensures paymentType == old(paymentType)
      ensures InCart(old(cart), product.id) ==>
                cart == AddQuantityWhere(old(cart), IdIs(product.id), AddAmount(requested))
      ensures !InCart(old(cart), product.id) ==> cart == old(cart) + [CartItem(product, AddAmount(requested))]
      ensures InCart(cart, product.id)
      ensures QuantityOf(cart, product.id) == QuantityOf(old(cart), product.id) + AddAmount(requested)
      ensures CalculateCartItemCount(cart) == CalculateCartItemCount(old(cart)) + AddAmount(requested)
    {
      var amount := if requested != 0 then requested else 1;
      var existing := FindWhere(cart, IdIs(product.id));
      if existing.Some? {
        AddToExistingEntry(cart, product.id, amount);
        cart := AddQuantityWhere(cart, IdIs(product.id), amount);
      } else {
        AppendNewEntry(cart, product, amount);
        cart := cart + [CartItem(product, amount)];
      }
    }

    /** `removeFromCart(productId)`: drops every entry whose `String(id)` equals
        `String(productId)`, keeps the rest in order, and changes nothing when
        no entry matches. */
    method RemoveFromCart(productId: Id)
      requires Valid()
      modifies this
      ensures Valid()
      ensures paymentType == old(paymentType)
      ensures cart == WithoutKey(old(cart), IdString(productId))
      ensures !IsInCart(productId)
    {
      cart := WithoutKey(cart, IdString(productId));
      SubsequenceKeepsUnique(cart, old(cart), ItemId);
      forall i | 0 <= i < |cart| ensures cart[i].product.id != productId {
        assert cart[i] in cart;
      }
    }

    /** `updateCartItemQuantity(productId, quantity)`: a quantity of 0 or less
        removes as `removeFromCart` does; otherwise every entry with id
        `=== productId` gets exactly that quantity. */
    method UpdateCartItemQuantity(productId: Id, quantity: int)
      requires Valid()
      modifies this
      ensures Valid()
      ensures paymentType == old(paymentType)
      ensures quantity <= 0 ==> cart == WithoutKey(old(cart), IdString(productId))
      ensures quantity > 0 ==> cart == SetQuantityWhere(old(cart), IdIs(productId), quantity)
      ensures quantity > 0 ==> IsInCart(productId) == old(IsInCart(productId))
      ensures quantity > 0 && IsInCart(productId) ==> GetProductQuantity(productId) == quantity
    {
      if quantity <= 0 {
        RemoveFromCart(productId);
        return;
      }
      ghost var before := cart;
      cart := SetQuantityWhere(cart, IdIs(productId), quantity);
      forall i, j | 0 <= i < j < |cart| ensures ItemId(cart[i]) != ItemId(cart[j]) {
        assert cart[i].product == before[i].product && cart[j].product == before[j].product;
      }
      assert forall i :: 0 <= i < |cart| ==> cart[i].product == before[i].product;
    }

    /** `clearCart`. */
    method ClearCart()
      modifies this
      ensures cart == [] && Valid()
      ensures paymentType == old(paymentType)
    {
      cart := [];
    }

    /** `setPaymentType`. */
    method SetPaymentType(t: PaymentType)
      modifies this
      ensures paymentType == t && cart == old(cart)
    {
      paymentType := t;
    }
  }

  /** What `fetchProducts` resolves to: the products, or the message of the
      error it throws. */
  datatype FetchOutcome = Fetched(data: seq<Product>) | FetchFailed(message: string)

  /** The state of `ProductsProvider`. */
  class ProductsProvider {
    var products: seq<Product>
    var isLoading: bool
    var error: Option<string>

    constructor ()
      ensures products == [] && isLoading && error.None?
    {
      products := [];
      isLoading := true;
      error := None;
    }

    /** `fetchProductsData`: loading is raised and the error cleared; then the
        products are the fetched ones, or empty with the error's message; and
        loading ends either way. */
    method FetchProductsData(outcome: FetchOutcome)
      modifies this
      ensures !isLoading
      ensures outcome.Fetched? ==> products == outcome.data && error.None?
      ensures outcome.FetchFailed? ==> products == [] && error == Some(outcome.message)
    {
      isLoading := true;
      error := None;
      match outcome {
        case Fetched(data) =>
          products := data;
        case FetchFailed(message) =>
          error := Some(message);
          products := [];
      }
      isLoading := false;
    }
  }

  predicate IsFeatured(p: Product) {
    p.recomendado || p.masVendido || p.delaCasa
  }

  predicate IsOnOffer(p: Product) {
    p.enOferta || p.descuento > 0.0
  }

  /** `getFeaturedProducts`: the recommended, best-selling or house products, in order. */
  function GetFeaturedProducts(products: seq<Product>): (r: seq<Product>)
    ensures IsSubsequence(r, products)
    ensures forall p :: p in r <==> p in products && (p.recomendado || p.masVendido || p.delaCasa)
    ensures forall p :: multiset(r)[p] == if p.recomendado || p.masVendido || p.delaCasa then multiset(products)[p] else 0
  {
    FilterMultiplicity(products, IsFeatured);
    Filter(products, IsFeatured)
  }

  /** `getOffersProducts`: the products on offer or with a positive discount, in order. */
  function GetOffersProducts(products: seq<Product>): (r: seq<Product>)
    ensures IsSubsequence(r, products)
    ensures forall p :: p in r <==> p in products && (p.enOferta || p.descuento > 0.0)
    ensures forall p :: multiset(r)[p] == if p.enOferta || p.descuento > 0.0 then multiset(products)[p] else 0
  {
    FilterMultiplicity(products, IsOnOffer);
    Filter(products, IsOnOffer)
  }

  predicate IsAvailable(p: Product) { p.disponible }
  predicate IsOutOfStock(p: Product) { p.agotado }
  predicate IsOnOfferFlag(p: Product) { p.enOferta }
  predicate IsRecommended(p: Product) { p.recomendado }
  predicate IsBestSeller(p: Product) { p.masVendido }
  predicate IsHouseSpecial(p: Product) { p.delaCasa }
  predicate HasCategoryName(p: Product) { p.categoria != "" }

  /** `getAvailableProducts`: the available products, in order. */
  function GetAvailableProducts(products: seq<Product>): (r: seq<Product>)
    ensures IsSubsequence(r, products)
    ensures forall p :: p in r <==> p in products && p.disponible
    ensures forall p :: multiset(r)[p] == if p.disponible then multiset(products)[p] else 0
  {
    FilterMultiplicity(products, IsAvailable);
    Filter(products, IsAvailable)
  }

  /** The distinct truthy categories of a product list, as the `Set` of
      `getProductStats` collects them. */
  function CategorySet(products: seq<Product>): (r: set<string>)
    ensures |r| <= |products|
    ensures forall c :: c in r ==> c != ""
  {
    if products == [] then {}
    else
      var front, c := CategorySet(products[..|products| - 1]), products[|products| - 1].categoria;
      if c == "" || c in front then front else front + {c}
  }

  /** A category is in the set exactly when it is truthy and some product has it. */
  lemma {:induction false} CategorySetMembers(products: seq<Product>, c: string)
    ensures c in CategorySet(products) <==> c != "" && exists i :: 0 <= i < |products| && products[i].categoria == c
  {
    if products != [] {
      var front := products[..|products| - 1];
      CategorySetMembers(front, c);
      assert forall i :: 0 <= i < |front| ==> front[i] == products[i];
    }
  }

  /** When every product is available exactly when it is not sold out, the
      available and sold-out counts add up to the list's length. */
  lemma StockCountsBalance(products: seq<Product>)
    ensures (forall p :: p in products ==> p.disponible == !p.agotado) ==>
              Count(products, IsAvailable) + Count(products, IsOutOfStock) == |products|
  {
    if forall p :: p in products ==> p.disponible == !p.agotado {
      CountComplement(products, IsAvailable, IsOutOfStock);
    }
  }

  datatype ProductStats = ProductStats(
    total: nat,
    available: nat,
    outOfStock: nat,
    onOffer: nat,
    recommended: nat,
    bestSellers: nat,
    houseSpecials: nat,
    categories: nat)

  /** `getProductStats`. */
  function GetProductStats(products: seq<Product>): (s: ProductStats)
    ensures s.total == |products|
    ensures s.available <= s.total && s.outOfStock <= s.total && s.onOffer <= s.total
    ensures s.recommended <= s.total && s.bestSellers <= s.total && s.houseSpecials <= s.total
    ensures s.categories <= s.total
    ensures (forall p :: p in products ==> p.disponible == !p.agotado) ==> s.available + s.outOfStock == s.total
    ensures s.categories == |CategorySet(products)|
  {
    StockCountsBalance(products);
    ProductStats(
      |products|,
      Count(products, IsAvailable),
      Count(products, IsOutOfStock),
      Count(products, IsOnOfferFlag),
      Count(products, IsRecommended),
      Count(products, IsBestSeller),
      Count(products, IsHouseSpecial),
      |CategorySet(products)|)
  }

  /** Every product the fetch keeps satisfies `disponible == !agotado`, so the
      available and out-of-stock counts of a fetched list add up to its size. */
  lemma NormalizedStatsBalance(raws: seq<RawProduct>, randomIds: seq<string>)
    requires RandomIdsFor(raws, randomIds)
    ensures var s := GetProductStats(NormalizeProducts(raws, randomIds));
            s.available + s.outOfStock == s.total
  {
    var products := NormalizeProducts(raws, randomIds);
    assert forall p :: p in products ==> p.disponible == !p.agotado;
  }

  datatype CategoryRow = CategoryRow(name: string, count: nat, available: nat)

  /** How many products have category `name`. */
  function CategoryCount(products: seq<Product>, name: string): (n: nat)
    ensures n <= |products|
  {
    if products == [] then 0
    else
      CategoryCount(products[..|products| - 1], name)
      + (if products[|products| - 1].categoria == name then 1 else 0)
  }

  /** How many products have a truthy category. */
  function WithCategoryCount(products: seq<Product>): (n: nat)
    ensures n <= |products|
  {
    if products == [] then 0
    else WithCategoryCount(products[..|products| - 1]) + (if products[|products| - 1].categoria != "" then 1 else 0)
  }

  /** `products.filter(p => p.categoria === name && p.disponible).length`. */
  function AvailableInCategory(products: seq<Product>, name: string): (n: nat)
    ensures n <= CategoryCount(products, name)
  {
    if products == [] then 0
    else
      var last := products[|products| - 1];
      AvailableInCategory(products[..|products| - 1], name) + (if last.categoria == name && last.disponible then 1 else 0)
  }

  /** The sum of `counts` over `names`. */
  function SumCounts(names: seq<string>, counts: map<string, nat>): nat
    requires forall n :: n in names ==> n in counts
  {
    if names == [] then 0
    else SumCounts(names[..|names| - 1], counts) + counts[names[|names| - 1]]
  }

  /** The sum of the `count` column. */
  function RowTotal(rows: seq<CategoryRow>): nat {
    if rows == [] then 0 else RowTotal(rows[..|rows| - 1]) + rows[|rows| - 1].count
  }

  lemma {:induction false} SumCountsFrame(names: seq<string>, m1: map<string, nat>, m2: map<string, nat>)
    requires forall n :: n in names ==> n in m1 && n in m2 && m1[n] == m2[n]
    ensures SumCounts(names, m1) == SumCounts(names, m2)
  {
    if names != [] {
      SumCountsFrame(names[..|names| - 1], m1, m2);
    }
  }

  /** Raising one listed name's count by one raises the sum by one. */
  lemma {:induction false} SumCountsBump(names: seq<string>, counts: map<string, nat>, c: string)
    requires Distinct(names) && c in names
    requires forall n :: n in names ==> n in counts
    ensures SumCounts(names, counts[c := counts[c] + 1]) == SumCounts(names, counts) + 1
  {
    var front, last := names[..|names| - 1], names[|names| - 1];
    assert forall n :: n in front ==> n in names;
    if last == c {
      assert forall i :: 0 <= i < |front| ==> front[i] == names[i] && names[i] != c;
      assert c !in front;
      SumCountsFrame(front, counts[c := counts[c] + 1], counts);
    } else {
      assert c in front;
      SumCountsBump(front, counts, c);
    }
  }

  /** A category outside the set has count 0. */
  lemma {:induction false} CountOutsideSet(products: seq<Product>, c: string)
    requires c != "" && c !in CategorySet(products)
    ensures CategoryCount(products, c) == 0
  {
    if products != [] {
      CountOutsideSet(products[..|products| - 1], c);
    }
  }

  /** The truthy categories of `seen`, each once, in the order of their first
      occurrence: the insertion order of a key into `categoryMap`. */
  function FirstSeen(seen: seq<Product>): (r: seq<string>)
    ensures Distinct(r)
    ensures forall c :: c in r <==> c in CategorySet(seen)
  {
    if seen == [] then []
    else
      var front, c := FirstSeen(seen[..|seen| - 1]), seen[|seen| - 1].categoria;
      if c == "" || c in CategorySet(seen[..|seen| - 1]) then front
      else
        AppendFreshDistinct(front, c);
        front + [c]
  }

  /** Scanning more products only appends categories: the categories first
      seen in a prefix come first, in the same order. */
  lemma {:induction false} FirstSeenPrefix(seen: seq<Product>, k: nat)
    requires k <= |seen|
    ensures FirstSeen(seen[..k]) <= FirstSeen(seen)
    decreases |seen|
  {
    if k < |seen| {
      var front := seen[..|seen| - 1];
      assert front[..k] == seen[..k];
      FirstSeenPrefix(front, k);
    } else {
      assert seen[..k] == seen;
    }
  }

  /** What the `forEach` of `getCategoriesWithCounts` has built after scanning
      `seen`: the keys of `categoryMap` in first-seen order, each with the
      number of scanned products of that category. */
  ghost predicate Tally(seen: seq<Product>, names: seq<string>, counts: map<string, nat>) {
    TallyKeys(seen, names, counts) && TallyCounts(seen, counts) && TallySum(seen, names, counts)
  }

  /** The keys are listed once each, in first-seen order, and are exactly the
      truthy categories seen. */
  ghost predicate TallyKeys(seen: seq<Product>, names: seq<string>, counts: map<string, nat>) {
    && names == FirstSeen(seen)
    && (forall n :: n in counts <==> n in names)
    && Distinct(names)
    && (forall c :: c in names <==> c in CategorySet(seen))
  }

  /** Each key maps to its number of products. */
  ghost predicate TallyCounts(seen: seq<Product>, counts: map<string, nat>) {
    forall n :: n in counts ==> counts[n] == CategoryCount(seen, n)
  }

  /** The counts add up to the number of products with a category. */
  ghost predicate TallySum(seen: seq<Product>, names: seq<string>, counts: map<string, nat>) {
    (forall n :: n in names ==> n in counts) && SumCounts(names, counts) == WithCategoryCount(seen)
  }

  lemma TallySkip(seen: seq<Product>, x: Product, names: seq<string>, counts: map<string, nat>)
    requires Tally(seen, names, counts) && x.categoria == ""
    ensures Tally(seen + [x], names, counts)
  {
    assert (seen + [x])[..|seen|] == seen;
    ScanKnownCategory(seen, x);
  }

  lemma TallyBump(seen: seq<Product>, x: Product, names: seq<string>, counts: map<string, nat>)
    requires Tally(seen, names, counts) && x.categoria != "" && x.categoria in counts
    ensures Tally(seen + [x], names, counts[x.categoria := counts[x.categoria] + 1])
  {
    TallyBumpKeys(seen, x, names, counts);
    TallyBumpCounts(seen, x, counts);
    assert (seen + [x])[..|seen|] == seen;
    SumCountsBump(names, counts, x.categoria);
  }

  lemma TallyBumpKeys(seen: seq<Product>, x: Product, names: seq<string>, counts: map<string, nat>)
    requires TallyKeys(seen, names, counts) && x.categoria != "" && x.categoria in counts
    ensures TallyKeys(seen + [x], names, counts[x.categoria := counts[x.categoria] + 1])
  {
    ScanKnownCategory(seen, x);
  }

  lemma TallyBumpCounts(seen: seq<Product>, x: Product, counts: map<string, nat>)
    requires TallyCounts(seen, counts) && x.categoria in counts
    ensures TallyCounts(seen + [x], counts[x.categoria := counts[x.categoria] + 1])
  {
    assert (seen + [x])[..|seen|] == seen;
  }

  lemma TallyNew(seen: seq<Product>, x: Product, names: seq<string>, counts: map<string, nat>)
    requires Tally(seen, names, counts) && x.categoria != "" && x.categoria !in counts
    ensures Tally(seen + [x], names + [x.categoria], counts[x.categoria := 1])
  {
    TallyNewKeys(seen, x, names, counts);
    TallyNewCounts(seen, x, names, counts);
    TallyNewSum(seen, x, names, counts);
  }

  lemma TallyNewKeys(seen: seq<Product>, x: Product, names: seq<string>, counts: map<string, nat>)
    requires TallyKeys(seen, names, counts) && x.categoria != "" && x.categoria !in counts
    ensures TallyKeys(seen + [x], names + [x.categoria], counts[x.categoria := 1])
  {
    var c := x.categoria;
    assert c !in CategorySet(seen);
    ScanNewCategory(seen, x);
    AppendFreshDistinct(names, c);
  }

  /** One product of a category not seen before adds it to the set and at the
      end of the first-seen list. */
  lemma ScanNewCategory(seen: seq<Product>, x: Product)
    requires x.categoria != "" && x.categoria !in CategorySet(seen)
    ensures CategorySet(seen + [x]) == CategorySet(seen) + {x.categoria}
    ensures FirstSeen(seen + [x]) == FirstSeen(seen) + [x.categoria]
  {
    assert (seen + [x])[..|seen|] == seen;
  }

  /** One product without a category, or of one seen before, changes neither
      the set nor the first-seen list. */
  lemma ScanKnownCategory(seen: seq<Product>, x: Product)
    requires x.categoria == "" || x.categoria in CategorySet(seen)
    ensures CategorySet(seen + [x]) == CategorySet(seen)
    ensures FirstSeen(seen + [x]) == FirstSeen(seen)
  {
    assert (seen + [x])[..|seen|] == seen;
  }

  lemma TallyNewCounts(seen: seq<Product>, x: Product, names: seq<string>, counts: map<string, nat>)
    requires TallyKeys(seen, names, counts) && TallyCounts(seen, counts)
    requires x.categoria != "" && x.categoria !in counts
    ensures TallyCounts(seen + [x], counts[x.categoria := 1])
  {
    assert (seen + [x])[..|seen|] == seen;
    CountOutsideSet(seen, x.categoria);
  }

  lemma TallyNewSum(seen: seq<Product>, x: Product, names: seq<string>, counts: map<string, nat>)
    requires TallySum(seen, names, counts) && x.categoria != "" && x.categoria !in counts
    ensures TallySum(seen + [x], names + [x.categoria], counts[x.categoria := 1])
  {
    var c := x.categoria;
    var names', counts' := names + [c], counts[c := 1];
    assert (seen + [x])[..|seen|] == seen;
    assert names'[..|names|] == names;
    SumCountsFrame(names, counts', counts);
  }

  /** The `forEach` of `getCategoriesWithCounts`. */
  method TallyCategories(products: seq<Product>) returns (names: seq<string>, counts: map<string, nat>)
    ensures Tally(products, names, counts)
    ensures names == FirstSeen(products)
  {
    names, counts := [], map[];
    for idx := 0 to |products|
      invariant Tally(products[..idx], names, counts)
    {
      var x := products[idx];
      assert products[..idx + 1] == products[..idx] + [x];
      if x.categoria == "" {
        TallySkip(products[..idx], x, names, counts);
      } else if x.categoria in counts {
        TallyBump(products[..idx], x, names, counts);
        counts := counts[x.categoria := counts[x.categoria] + 1];
      } else {
        TallyNew(products[..idx], x, names, counts);
        names := names + [x.categoria];
        counts := counts[x.categoria := 1];
      }
    }
    assert products[..|products|] == products;
  }

  /** The `map` of `getCategoriesWithCounts` over the entries of `categoryMap`. */
  function Rows(products: seq<Product>, names: seq<string>, counts: map<string, nat>): (rows: seq<CategoryRow>)
    requires forall n :: n in names ==> n in counts
    ensures |rows| == |names|
    ensures forall i :: 0 <= i < |names| ==>
              rows[i] == CategoryRow(names[i], counts[names[i]], AvailableInCategory(products, names[i]))
    ensures RowTotal(rows) == SumCounts(names, counts)
  {
    if names == [] then []
    else
      var front := names[..|names| - 1];
      var last := names[|names| - 1];
      assert forall n :: n in front ==> n in names;
      var r := Rows(products, front, counts) + [CategoryRow(last, counts[last], AvailableInCategory(products, last))];
      assert r[..|r| - 1] == Rows(products, front, counts);
      r
  }

  /** The rows built from a finished tally carry each category's count and
      available count, and the counts add up to the number of products with a
      category. */
  lemma RowsOfTallyCounts(products: seq<Product>, names: seq<string>, counts: map<string, nat>)
    requires TallyCounts(products, counts) && TallySum(products, names, counts)
    ensures var rows := Rows(products, names, counts);
            && (forall i :: 0 <= i < |rows| ==> rows[i].count == CategoryCount(products, rows[i].name))
            && (forall i :: 0 <= i < |rows| ==> rows[i].available == AvailableInCategory(products, rows[i].name))
            && RowTotal(rows) == WithCategoryCount(products)
  {
  }

  /** The rows built from a finished tally name each truthy category once, so
      there are as many rows as distinct categories. */
  lemma RowsOfTallyNames(products: seq<Product>, names: seq<string>, counts: map<string, nat>)
    requires TallyKeys(products, names, counts)
    ensures var rows := Rows(products, names, counts);
            && (forall i, j :: 0 <= i < j < |rows| ==> rows[i].name != rows[j].name)
            && (forall c :: (exists i :: 0 <= i < |rows| && rows[i].name == c) <==> c in CategorySet(products))
            && |rows| == |CategorySet(products)|
  {
    var rows := Rows(products, names, counts);
    forall c | c in CategorySet(products) ensures exists i :: 0 <= i < |rows| && rows[i].name == c {
      var i :| 0 <= i < |names| && names[i] == c;
      assert rows[i].name == c;
    }
    DistinctNamesSize(names, CategorySet(products));
  }

  lemma DistinctNamesSize(names: seq<string>, cats: set<string>)
    requires Distinct(names) && forall c :: c in names <==> c in cats
    ensures |names| == |cats|
  {
    DistinctSetSize(names);
    assert (set x | x in names) == cats;
  }

  /** `getCategoriesWithCounts`: one row per truthy category (in first-seen
      order) with its product count and its number of available products;
      the counts add up to the number of products with a category, and there
      are as many rows as `getProductStats` counts categories. */
  method GetCategoriesWithCounts(products: seq<Product>) returns (rows: seq<CategoryRow>)
    ensures forall i, j :: 0 <= i < j < |rows| ==> rows[i].name != rows[j].name
    ensures forall c :: (exists i :: 0 <= i < |rows| && rows[i].name == c) <==> c in CategorySet(products)
    ensures forall i :: 0 <= i < |rows| ==> rows[i].count == CategoryCount(products, rows[i].name)
    ensures forall i :: 0 <= i < |rows| ==> rows[i].available == AvailableInCategory(products, rows[i].name)
    ensures RowTotal(rows) == WithCategoryCount(products)
    ensures |rows| == |CategorySet(products)|
    ensures |rows| == |FirstSeen(products)| && forall i :: 0 <= i < |rows| ==> rows[i].name == FirstSeen(products)[i]
  {
    var names, counts := TallyCategories(products);
    RowsOfTallyCounts(products, names, counts);
    RowsOfTallyNames(products, names, counts);
    rows := Rows(products, names, counts);
  }
}

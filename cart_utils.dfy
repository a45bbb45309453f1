/** `utils/cart.js`: the pure cart reducer. Entries are matched by the string
    form of their id, and totals carry no discount. */
module CartUtils {
  import opened Options
  import opened Sequences
  import opened Catalog

  /** A cart entry: the product's fields spread into the entry, plus `quantity`. */
  datatype CartItem = CartItem(product: Product, quantity: int)

  /** `item.id?.toString()`, the key every operation of this file compares. */
  function Key(item: CartItem): string {
    IdString(item.product.id)
  }

  /** The test "this entry's string id is `key`". */
  function KeyIs(key: string): CartItem -> bool {
    (it: CartItem) => Key(it) == key
  }

  /** The test "this entry's string id is not `key`", the `filter` of a removal. */
  function KeyIsNot(key: string): CartItem -> bool {
    (it: CartItem) => Key(it) != key
  }

  /** No two entries agree on `key`. */
  predicate UniqueBy<K(==)>(items: seq<CartItem>, key: CartItem -> K) {
    forall i, j :: 0 <= i < j < |items| ==> key(items[i]) != key(items[j])
  }

  /** No two entries share a string id. */
  predicate UniqueKeys(items: seq<CartItem>) {
    UniqueBy(items, Key)
  }

  predicate HasMatch(items: seq<CartItem>, matches: CartItem -> bool) {
    exists i :: 0 <= i < |items| && matches(items[i])
  }

  /** How many entries pass `matches`. */
  function MatchCount(items: seq<CartItem>, matches: CartItem -> bool): nat {
    if items == [] then 0
    else (if matches(items[0]) then 1 else 0) + MatchCount(items[1..], matches)
  }

  /** `Array.prototype.find`: the first entry that passes `matches`. */
  function FindWhere(items: seq<CartItem>, matches: CartItem -> bool): (r: Option<CartItem>)
    ensures r.None? <==> !HasMatch(items, matches)
    ensures r.Some? ==> exists k :: 0 <= k < |items| && items[k] == r.value && matches(items[k]) &&
                                    forall j :: 0 <= j < k ==> !matches(items[j])
  {
    if items == [] then None
    else if matches(items[0]) then Some(items[0])
    else
      var r := FindWhere(items[1..], matches);
      assert forall i :: 1 <= i < |items| ==> items[i] == items[1..][i - 1];
      r
  }

  /** `findCartItem`: nothing for a falsy id, else the first entry whose string
      id equals that of `productId`. */
  function FindCartItem(items: seq<CartItem>, productId: Id): (r: Option<CartItem>)
    ensures !IdTruthy(productId) ==> r.None?
    ensures IdTruthy(productId) ==> (r.None? <==> !HasMatch(items, KeyIs(IdString(productId))))
    ensures r.Some? ==> r.value in items && Key(r.value) == IdString(productId)
    ensures r.Some? ==> exists k :: 0 <= k < |items| && items[k] == r.value &&
                                    forall j :: 0 <= j < k ==> Key(items[j]) != IdString(productId)
  {
    if !IdTruthy(productId) then None else FindWhere(items, KeyIs(IdString(productId)))
  }

  /** A `map` that gives the entries passing `matches` `q` more. */
  function AddQuantityWhere(items: seq<CartItem>, matches: CartItem -> bool, q: int): (r: seq<CartItem>)
    ensures |r| == |items|
    ensures forall i :: 0 <= i < |items| && matches(items[i]) ==>
              r[i] == items[i].(quantity := items[i].quantity + q)
    ensures forall i :: 0 <= i < |items| && !matches(items[i]) ==> r[i] == items[i]
  {
    if items == [] then []
    else
      var head := if matches(items[0]) then items[0].(quantity := items[0].quantity + q) else items[0];
      [head] + AddQuantityWhere(items[1..], matches, q)
  }

  /** A `map` that gives the entries passing `matches` quantity `q`. */
  function SetQuantityWhere(items: seq<CartItem>, matches: CartItem -> bool, q: int): (r: seq<CartItem>)
    ensures |r| == |items|
    ensures forall i :: 0 <= i < |items| && matches(items[i]) ==> r[i] == items[i].(quantity := q)
    ensures forall i :: 0 <= i < |items| && !matches(items[i]) ==> r[i] == items[i]
  {
    if items == [] then []
    else
      var head := if matches(items[0]) then items[0].(quantity := q) else items[0];
      [head] + SetQuantityWhere(items[1..], matches, q)
  }

  /** The entries whose string id is not `key`, in order. */
  function WithoutKey(items: seq<CartItem>, key: string): (r: seq<CartItem>)
    ensures IsSubsequence(r, items)
    ensures forall x :: x in r <==> x in items && Key(x) != key
    ensures forall x :: multiset(r)[x] == if Key(x) != key then multiset(items)[x] else 0
    ensures !HasMatch(items, KeyIs(key)) ==> r == items
  {
    FilterKeepsAll(items, KeyIsNot(key));
    FilterMultiplicity(items, KeyIsNot(key));
    Filter(items, KeyIsNot(key))
  }

  /** `addToCart(cartItems, product, quantity)`; `None` is a missing product. */
  function AddToCart(items: seq<CartItem>, product: Option<Product>, quantity: int): (r: seq<CartItem>)
    ensures product.None? || !IdTruthy(product.value.id) ==> r == items
    ensures product.Some? && IdTruthy(product.value.id) && HasMatch(items, KeyIs(IdString(product.value.id))) ==>
              r == AddQuantityWhere(items, KeyIs(IdString(product.value.id)), quantity)
    ensures product.Some? && IdTruthy(product.value.id) && !HasMatch(items, KeyIs(IdString(product.value.id))) ==>
              r == items + [CartItem(product.value, quantity)]
  {
    if product.None? || !IdTruthy(product.value.id) then items
    else if FindCartItem(items, product.value.id).Some? then
      AddQuantityWhere(items, KeyIs(IdString(product.value.id)), quantity)
    else items + [CartItem(product.value, quantity)]
  }

  /** `removeFromCart`: a falsy id changes nothing; otherwise the entries whose
      string id differs from that of `productId`, in order. */
  function RemoveFromCart(items: seq<CartItem>, productId: Id): (r: seq<CartItem>)
    ensures !IdTruthy(productId) ==> r == items
    ensures IdTruthy(productId) ==> r == WithoutKey(items, IdString(productId))
  {
    if !IdTruthy(productId) then items
    else WithoutKey(items, IdString(productId))
  }

  /** `updateCartItemQuantity`; `newQuantity` is the value `parseInt(...) || 0`
      has already produced. */
  function UpdateCartItemQuantity(items: seq<CartItem>, productId: Id, newQuantity: int): (r: seq<CartItem>)
    ensures !IdTruthy(productId) ==> r == items
    ensures newQuantity <= 0 ==> r == RemoveFromCart(items, productId)
    ensures IdTruthy(productId) && newQuantity > 0 ==>
              r == SetQuantityWhere(items, KeyIs(IdString(productId)), newQuantity)
  {
    if !IdTruthy(productId) then items
    else if newQuantity <= 0 then RemoveFromCart(items, productId)
    else SetQuantityWhere(items, KeyIs(IdString(productId)), newQuantity)
  }

  /** `clearCart`. */
  function ClearCart(): (r: seq<CartItem>)
    ensures |r| == 0
  {
    []
  }

  /** `price * quantity`: one entry's share of a total, no discount. */
  function LineTotal(item: CartItem): real {
    item.product.precio * item.quantity as real
  }

  /** `calculateCartTotal`: the sum of `precio * quantity`, no discount. A cart
      whose entries all pass `validateCartItem` never totals below zero. */
  function CalculateCartTotal(items: seq<CartItem>): (r: real)
    ensures AllValid(items) ==> r >= 0.0
  {
    if items == [] then 0.0
    else LineTotal(items[0]) + CalculateCartTotal(items[1..])
  }

  /** `calculateCartItemCount`: the sum of the quantities. A cart whose entries
      all pass `validateCartItem` counts at least one item per entry. */
  function CalculateCartItemCount(items: seq<CartItem>): (r: int)
    ensures AllValid(items) ==> r >= |items|
  {
    if items == [] then 0 else items[0].quantity + CalculateCartItemCount(items[1..])
  }

  /** `validateCartItem`: an integer quantity above zero, a price not below
      zero, an id other than `''` (a numeric `0` passes) and a non-empty name.
      A valid entry adds at least one item and a non-negative amount, and has a
      non-empty key. */
  predicate ValidateCartItem(item: CartItem): (b: bool)
    ensures b ==> item.quantity >= 1 && LineTotal(item) >= 0.0
    ensures b ==> Key(item) != ""
  {
    && item.quantity > 0
    && item.product.precio >= 0.0
    && item.product.id != StrId("")
    && item.product.nombre != ""
  }

  /** Every entry passes `validateCartItem`. */
  predicate AllValid(items: seq<CartItem>) {
    forall i :: 0 <= i < |items| ==> ValidateCartItem(items[i])
  }

  datatype CartSummary = CartSummary(
    items: seq<CartItem>,
    totalItems: int,
    totalCost: real,
    uniqueProducts: nat,
    isEmpty: bool,
    isValid: bool)

  /** `getCartSummary`: the summary of the valid entries. */
  function GetCartSummary(items: seq<CartItem>): (s: CartSummary)
    ensures IsSubsequence(s.items, items)
    ensures forall x :: x in s.items <==> x in items && ValidateCartItem(x)
    ensures forall x :: multiset(s.items)[x] == if ValidateCartItem(x) then multiset(items)[x] else 0
    ensures s.isEmpty <==> forall i :: 0 <= i < |items| ==> !ValidateCartItem(items[i])
    ensures s.isValid <==> forall i :: 0 <= i < |items| ==> ValidateCartItem(items[i])
    ensures s.uniqueProducts == |s.items|
    ensures s.totalItems == CalculateCartItemCount(s.items) && s.totalCost == CalculateCartTotal(s.items)
    ensures s.totalItems >= s.uniqueProducts && s.totalCost >= 0.0
  {
    var valid := Filter(items, ValidateCartItem);
    FilterKeepsAll(items, ValidateCartItem);
    FilterMultiplicity(items, ValidateCartItem);
    assert valid != [] ==> valid[0] in valid;
    assert AllValid(valid) by {
      forall i | 0 <= i < |valid| ensures ValidateCartItem(valid[i]) {
        assert valid[i] in valid;
      }
    }
    CartSummary(valid, CalculateCartItemCount(valid), CalculateCartTotal(valid), |valid|,
                |valid| == 0, |valid| == |items|)
  }

  /** Both totals add up over a split. */
  lemma {:induction false} TotalsAppend(a: seq<CartItem>, b: seq<CartItem>)
    ensures CalculateCartItemCount(a + b) == CalculateCartItemCount(a) + CalculateCartItemCount(b)
    ensures CalculateCartTotal(a + b) == CalculateCartTotal(a) + CalculateCartTotal(b)
  {
    if a != [] {
      assert (a + b)[0] == a[0] && (a + b)[1..] == a[1..] + b;
      TotalsAppend(a[1..], b);
    } else {
      assert a + b == b;
    }
  }

  /** Adding `q` to the matching entries adds `q` per match to the item count. */
  lemma {:induction false} AddQuantityCount(items: seq<CartItem>, matches: CartItem -> bool, q: int)
    ensures CalculateCartItemCount(AddQuantityWhere(items, matches, q))
            == CalculateCartItemCount(items) + q * MatchCount(items, matches)
  {
    if items != [] {
      var r := AddQuantityWhere(items, matches, q);
      var m := MatchCount(items[1..], matches);
      var rest := CalculateCartItemCount(items[1..]);
      assert r[1..] == AddQuantityWhere(items[1..], matches, q);
      AddQuantityCount(items[1..], matches, q);
      assert CalculateCartItemCount(r[1..]) == rest + q * m;
      assert CalculateCartItemCount(r) == r[0].quantity + CalculateCartItemCount(r[1..]);
      assert CalculateCartItemCount(items) == items[0].quantity + rest;
      if matches(items[0]) {
        assert r[0].quantity == items[0].quantity + q;
        assert MatchCount(items, matches) == 1 + m;
        OneMore(q, m);
      } else {
        assert r[0] == items[0];
        assert MatchCount(items, matches) == m;
      }
    }
  }

  /** `q` more for one more match. */
  lemma OneMore(q: int, m: int)
    ensures q * (1 + m) == q + q * m
  {
  }

  /** When at most one entry passes `matches`, a present match is counted once. */
  lemma {:induction false} SingleMatchCount(items: seq<CartItem>, matches: CartItem -> bool)
    requires forall i, j :: 0 <= i < j < |items| && matches(items[i]) ==> !matches(items[j])
    ensures MatchCount(items, matches) == (if HasMatch(items, matches) then 1 else 0)
  {
    if items != [] {
      var rest := items[1..];
      assert forall i :: 0 <= i < |rest| ==> rest[i] == items[i + 1];
      SingleMatchCount(rest, matches);
      if !matches(items[0]) && HasMatch(items, matches) {
        var i :| 0 <= i < |items| && matches(items[i]);
        assert matches(rest[i - 1]);
      }
    }
  }

  /** A subsequence of a cart whose entries are unique by `key` is unique by
      `key` too. */
  lemma {:induction false} SubsequenceKeepsUnique<K>(r: seq<CartItem>, s: seq<CartItem>, key: CartItem -> K)
    requires IsSubsequence(r, s) && UniqueBy(s, key)
    ensures UniqueBy(r, key)
  {
    if r != [] && s != [] {
      var rest := s[1..];
      assert forall i :: 0 <= i < |rest| ==> rest[i] == s[i + 1];
      if r[0] == s[0] && IsSubsequence(r[1..], rest) {
        SubsequenceKeepsUnique(r[1..], rest, key);
        SubsequenceElements(r[1..], rest);
        forall i, j | 0 <= i < j < |r| ensures key(r[i]) != key(r[j]) {
          if i == 0 {
            assert r[j] == r[1..][j - 1] && r[j] in r[1..];
            var k :| 0 <= k < |rest| && rest[k] == r[j];
          } else {
            assert r[i] == r[1..][i - 1] && r[j] == r[1..][j - 1];
          }
        }
      } else {
        SubsequenceKeepsUnique(r, rest, key);
      }
    }
  }

  /** Adding a product with a truthy id to a cart with unique string ids raises
      the item count by exactly `quantity` and keeps the ids unique. */
  lemma AddToCartCount(items: seq<CartItem>, product: Product, quantity: int)
    requires UniqueKeys(items) && IdTruthy(product.id)
    ensures CalculateCartItemCount(AddToCart(items, Some(product), quantity)) == CalculateCartItemCount(items) + quantity
    ensures UniqueKeys(AddToCart(items, Some(product), quantity))
  {
    var matches := KeyIs(IdString(product.id));
    var r := AddToCart(items, Some(product), quantity);
    if HasMatch(items, matches) {
      AddQuantityCount(items, matches, quantity);
      SingleMatchCount(items, matches);
      forall i, j | 0 <= i < j < |r| ensures Key(r[i]) != Key(r[j]) {
        assert r[i].product == items[i].product && r[j].product == items[j].product;
      }
    } else {
      TotalsAppend(items, [CartItem(product, quantity)]);
      forall i, j | 0 <= i < j < |r| ensures Key(r[i]) != Key(r[j]) {
        if j == |items| {
          assert r[i] == items[i] && !matches(items[i]);
        } else {
          assert r[i] == items[i] && r[j] == items[j];
        }
      }
    }
  }

  /** After a removal with a truthy id no entry carries that string id, and
      unique ids stay unique. */
  lemma RemoveFromCartRemovesKey(items: seq<CartItem>, productId: Id)
    requires UniqueKeys(items) && IdTruthy(productId)
    ensures !HasMatch(RemoveFromCart(items, productId), KeyIs(IdString(productId)))
    ensures UniqueKeys(RemoveFromCart(items, productId))
  {
    var r := RemoveFromCart(items, productId);
    SubsequenceKeepsUnique(r, items, Key);
  }

  /** Updating a quantity keeps string ids unique; a positive quantity keeps
      the entry count and changes only the matching entries' quantities. */
  lemma UpdateCartItemQuantityKeepsKeys(items: seq<CartItem>, productId: Id, newQuantity: int)
    requires UniqueKeys(items)
    ensures UniqueKeys(UpdateCartItemQuantity(items, productId, newQuantity))
    ensures newQuantity > 0 ==> |UpdateCartItemQuantity(items, productId, newQuantity)| == |items|
  {
    var r := UpdateCartItemQuantity(items, productId, newQuantity);
    if IdTruthy(productId) {
      if newQuantity <= 0 {
        RemoveFromCartRemovesKey(items, productId);
      } else {
        forall i, j | 0 <= i < j < |r| ensures Key(r[i]) != Key(r[j]) {
          assert r[i].product == items[i].product && r[j].product == items[j].product;
        }
      }
    }
  }
}

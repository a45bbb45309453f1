/** `screens/CartScreen.js`: the handlers of the cart screen, each a guarded
    call into the live cart store. A confirmation dialog is the boolean
    `confirmed`: the user's answer. */
module CartScreen {
  import opened Options
  import opened Catalog
  import opened CartUtils
  import opened AppContext

  /** The segmented control: segment 0 is cash, any other segment is card. */
  function PaymentTypeForSegment(selectedIndex: int): (t: PaymentType)
    ensures t == Cash <==> selectedIndex == 0
    ensures t == Card <==> selectedIndex != 0
  {
    if selectedIndex == 0 then Cash else Card
  }

  /** `handlePaymentTypeChange`. */
  method HandlePaymentTypeChange(store: CartStore, selectedIndex: int)
    modifies store
    ensures store.paymentType == PaymentTypeForSegment(selectedIndex)
    ensures store.cart == old(store.cart)
  {
    store.SetPaymentType(PaymentTypeForSegment(selectedIndex));
  }

  /** `incrementQuantity(item)`: asks the store for one more of `item`. For
      an entry of the cart with a quantity of at least 0 the entry ends up
      with exactly one more, and no other entry changes. */
  method IncrementQuantity(store: CartStore, item: CartItem)
    requires store.Valid()
    modifies store
    ensures store.Valid()
    ensures store.paymentType == old(store.paymentType)
    ensures item.quantity + 1 > 0 ==>
              store.cart == SetQuantityWhere(old(store.cart), IdIs(item.product.id), item.quantity + 1)
    ensures item.quantity + 1 <= 0 ==> store.cart == WithoutKey(old(store.cart), IdString(item.product.id))
    ensures item in old(store.cart) && item.quantity >= 0 ==>
              store.IsInCart(item.product.id) && store.GetProductQuantity(item.product.id) == item.quantity + 1
  {
    ghost var wasIn := item in store.cart;
    if wasIn {
      var k :| 0 <= k < |store.cart| && store.cart[k] == item;
      assert store.IsInCart(item.product.id);
    }
    store.UpdateCartItemQuantity(item.product.id, item.quantity + 1);
  }

  /** `handleRemoveItem(item)`: removes the product's entries once the user
      confirms; declining changes nothing. */
  method HandleRemoveItem(store: CartStore, item: CartItem, confirmed: bool)
    requires store.Valid()
    modifies store
    ensures store.Valid()
    ensures store.paymentType == old(store.paymentType)
    ensures confirmed ==>
              store.cart == WithoutKey(old(store.cart), IdString(item.product.id)) && !store.IsInCart(item.product.id)
    ensures !confirmed ==> store.cart == old(store.cart)
  {
    if confirmed {
      store.RemoveFromCart(item.product.id);
    }
  }

  /** `decrementQuantity(item)`: one less while more than one is in the cart;
      at one (or less) it never sets 0 but goes to the confirmed removal. */
  method DecrementQuantity(store: CartStore, item: CartItem, confirmed: bool)
    requires store.Valid()
    modifies store
    ensures store.Valid()
    ensures store.paymentType == old(store.paymentType)
    ensures item.quantity > 1 ==>
              store.cart == SetQuantityWhere(old(store.cart), IdIs(item.product.id), item.quantity - 1)
    ensures item.quantity > 1 && item in old(store.cart) ==>
              store.IsInCart(item.product.id) && store.GetProductQuantity(item.product.id) == item.quantity - 1 >= 1
    ensures item.quantity <= 1 && confirmed ==>
              store.cart == WithoutKey(old(store.cart), IdString(item.product.id)) && !store.IsInCart(item.product.id)
    ensures item.quantity <= 1 && !confirmed ==> store.cart == old(store.cart)
  {
    if item.quantity > 1 {
      ghost var wasIn := item in store.cart;
      if wasIn {
        var k :| 0 <= k < |store.cart| && store.cart[k] == item;
        assert store.IsInCart(item.product.id);
      }
      store.UpdateCartItemQuantity(item.product.id, item.quantity - 1);
    } else {
      HandleRemoveItem(store, item, confirmed);
    }
  }

  /** `handleClearCart`: empties the cart once the user confirms. */
  method HandleClearCart(store: CartStore, confirmed: bool)
    requires store.Valid()
    modifies store
    ensures store.Valid()
    ensures store.paymentType == old(store.paymentType)
    ensures confirmed ==> store.cart == []
    ensures !confirmed ==> store.cart == old(store.cart)
  {
    if confirmed {
      store.ClearCart();
    }
  }

  /** The route parameters the checkout screen receives. */
  datatype CheckoutParams = CheckoutParams(cart: seq<CartItem>, totalCost: real, paymentType: PaymentType)

  /** `handleCheckout`: with an empty cart an alert is shown and nothing
      navigates (`None`); otherwise the checkout receives the cart, its
      discounted total and the payment type as they are now. */
  method HandleCheckout(store: CartStore) returns (params: Option<CheckoutParams>)
    ensures params.None? <==> |store.cart| == 0
    ensures params.Some? ==> params.value == CheckoutParams(store.cart, TotalCost(store.cart), store.paymentType)
    ensures params.Some? ==> params.value.totalCost + TotalSavings(store.cart) == CalculateCartTotal(store.cart)
  {
    if |store.cart| == 0 {
      return None;
    }
    CostPlusSavings(store.cart);
    var totalCost := TotalCost(store.cart);
    params := Some(CheckoutParams(store.cart, totalCost, store.paymentType));
  }
}

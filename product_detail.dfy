/** `screens/ProductDetailScreen.js`: the quantity selector, the subtotal
    kept in step with it, and adding the chosen quantity to the cart. */
module ProductDetail {
  import opened Catalog
  import opened CartUtils
  import opened AppContext

  class ProductDetailState {
    var product: Product
    var quantity: int
    var subtotal: real

    /** The quantity never drops below one, and the subtotal follows it. */
    ghost predicate Valid()
      reads this
    {
      quantity >= 1 && subtotal == LineTotal(CartItem(product, quantity))
    }

    /** Mounting: a quantity of 1, and the effect computes its subtotal. */
    constructor (product: Product)
      ensures Valid()
      ensures this.product == product && quantity == 1 && subtotal == product.precio
    {
      this.product := product;
      quantity := 1;
      subtotal := 0.0;
      new;
      UpdateSubtotal();
    }

    /** The effect that runs whenever `quantity` changes: `price * quantity`,
        no discount. */
    method UpdateSubtotal()
      modifies this
      ensures subtotal == LineTotal(CartItem(product, quantity))
      ensures product == old(product) && quantity == old(quantity)
    {
      subtotal := product.precio * quantity as real;
    }

    /** `incrementQuantity`. */
    method IncrementQuantity()
      requires Valid()
      modifies this
      ensures Valid()
      ensures quantity == old(quantity) + 1 && product == old(product)
    {
      quantity := quantity + 1;
      UpdateSubtotal();
    }

    /** `decrementQuantity`: one less, but never below 1. */
    method DecrementQuantity()
      requires Valid()
      modifies this
      ensures Valid()
      ensures old(quantity) > 1 ==> quantity == old(quantity) - 1
      ensures old(quantity) <= 1 ==> quantity == 1
      ensures product == old(product)
    {
      quantity := if quantity > 1 then quantity - 1 else 1;
      UpdateSubtotal();
    }

    /** `handleAddToCart`: the product goes to the cart with the selected
        quantity, which raises the cart's item count, and the product's own
        quantity in it, by exactly that many. An entry with the product's id
        grows in place; otherwise the product is appended. The payment type
        stays as it was. */
    method HandleAddToCart(store: CartStore)
      requires Valid() && store.Valid()
      modifies store
      ensures store.Valid()
      ensures store.paymentType == old(store.paymentType)
      ensures InCart(old(store.cart), product.id) ==>
                store.cart == AddQuantityWhere(old(store.cart), IdIs(product.id), quantity)
      ensures !InCart(old(store.cart), product.id) ==>
                store.cart == old(store.cart) + [CartItem(product, quantity)]
      ensures CalculateCartItemCount(store.cart) == CalculateCartItemCount(old(store.cart)) + quantity
      ensures store.GetProductQuantity(product.id) == old(store.GetProductQuantity(product.id)) + quantity
      ensures store.IsInCart(product.id)
    {
      store.AddToCart(product, quantity);
    }
  }
}

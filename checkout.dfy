/** `screens/CheckoutScreen.js`: the order review, the confirmation, the
    simulated payment and the completed order. The two-second wait of the
    payment is the discrete event `FinishPayment`. */
module Checkout {
  import opened Catalog
  import opened CartUtils
  import opened AppContext
  import opened CartScreen

  /** What the screen renders: the spinner while processing, the success view
      once completed, the review otherwise (checked in that order). */
  datatype Phase = Reviewing | Processing | Completed

  /** The line amounts the summary lists, in cart order. */
  function OrderLines(items: seq<CartItem>): (lines: seq<real>)
    ensures |lines| == |items|
    ensures forall i :: 0 <= i < |items| ==> lines[i] == LineTotal(items[i])
  {
    seq(|items|, i requires 0 <= i < |items| => LineTotal(items[i]))
  }

  function Sum(xs: seq<real>): real {
    if xs == [] then 0.0 else xs[0] + Sum(xs[1..])
  }

  /** The listed lines add up to the undiscounted cart total, which exceeds the
      discounted `Total:` shown under them by exactly the savings. */
  lemma {:induction false} OrderLinesSum(items: seq<CartItem>)
    ensures Sum(OrderLines(items)) == CalculateCartTotal(items)
    ensures Sum(OrderLines(items)) == TotalCost(items) + TotalSavings(items)
  {
    if items != [] {
      OrderLinesSum(items[1..]);
      assert OrderLines(items)[1..] == OrderLines(items[1..]);
      CostPlusSavings(items);
    }
  }

  /** The state of one checkout screen: the route snapshot and the two flags. */
  class CheckoutState {
    var cart: seq<CartItem>
    var totalCost: real
    var paymentType: PaymentType
    var isProcessing: bool
    var orderCompleted: bool

    /** The spinner and the success view are never due at once. */
    ghost predicate Valid()
      reads this
    {
      !(isProcessing && orderCompleted)
    }

    function CurrentPhase(): (p: Phase)
      reads this
      ensures p == Processing <==> isProcessing
      ensures p == Completed <==> !isProcessing && orderCompleted
    {
      if isProcessing then Processing else if orderCompleted then Completed else Reviewing
    }

    /** Arriving from the cart screen with its route parameters. */
    constructor (params: CheckoutParams)
      ensures Valid() && CurrentPhase() == Reviewing
      ensures cart == params.cart && totalCost == params.totalCost && paymentType == params.paymentType
    {
      cart := params.cart;
      totalCost := params.totalCost;
      paymentType := params.paymentType;
      isProcessing := false;
      orderCompleted := false;
    }

    /** `handleConfirmPurchase`: the button is only on the review view. When
        the user confirms, `processPayment` starts and raises `isProcessing`;
        declining leaves everything as it was. */
    method HandleConfirmPurchase(confirmed: bool)
      requires Valid() && CurrentPhase() == Reviewing
      modifies this
      ensures Valid()
      ensures confirmed ==> CurrentPhase() == Processing
      ensures !confirmed ==> isProcessing == old(isProcessing) && orderCompleted == old(orderCompleted)
      ensures cart == old(cart) && totalCost == old(totalCost) && paymentType == old(paymentType)
    {
      if confirmed {
        isProcessing := true;
      }
    }

    /** The end of the simulated delay: `isProcessing` drops, the order is
        completed and only then is the live cart cleared. The snapshot shown
        on the screen is not the live cart and keeps its contents. */
    method FinishPayment(store: CartStore)
      requires Valid() && isProcessing
      modifies this, store
      ensures Valid() && CurrentPhase() == Completed
      ensures store.cart == [] && store.Valid() && store.paymentType == old(store.paymentType)
      ensures cart == old(cart) && totalCost == old(totalCost) && paymentType == old(paymentType)
    {
      isProcessing := false;
      orderCompleted := true;
      store.ClearCart();
    }
  }
}

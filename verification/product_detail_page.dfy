/**
 * The quantity stepper of src/pages/ProductDetailPage.tsx: the `quantity` state stepped by the
 * plus and minus buttons and by typing, and the add-to-cart handler that hands it to the cart.
 */
module ProductDetailPage {
  import opened Wrappers
  import JsNumber
  import CartContext

  /** The quantity typed text becomes: `Math.max(1, parseInt(text) || 1)`. */
  function InputQuantity(text: string): (q: int)
    ensures q >= 1
    ensures JsNumber.ParseInt(text).Int? && JsNumber.ParseInt(text).value >= 1 ==> q == JsNumber.ParseInt(text).value
    ensures JsNumber.ParseInt(text).NaN? || JsNumber.ParseInt(text).value < 1 ==> q == 1
  {
    var parsed := match JsNumber.ParseInt(text)
      case NaN => 1
      case Int(n) => if n == 0 then 1 else n;
    if parsed < 1 then 1 else parsed
  }

  /** Typing the decimal text of a quantity of at least 1 selects exactly that quantity. */
  lemma InputQuantityRoundTrip(n: int)
    requires n >= 1
    ensures InputQuantity(JsNumber.ToText(JsNumber.Int(n))) == n
  {
    JsNumber.ParseIntRoundTrip(JsNumber.Int(n));
  }

  class QuantityStepper {
    var quantity: int

    /** The invariant every handler keeps: at least one unit is selected. */
    predicate Valid()
      reads this
    {
      quantity >= 1
    }

    /** The minus button is disabled at one unit. */
    predicate DecrementDisabled()
      reads this
    {
      quantity <= 1
    }

    constructor()
      ensures quantity == 1 && Valid()
    {
      quantity := 1;
    }

    /** `incrementQuantity`: one more, with no upper bound. */
    method Increment()
      requires Valid()
      modifies this
      ensures quantity == old(quantity) + 1 && Valid()
    {
      quantity := quantity + 1;
    }

    /** `decrementQuantity`: one less, only above one unit. */
    method Decrement()
      requires Valid()
      modifies this
      ensures old(DecrementDisabled()) ==> quantity == old(quantity)
      ensures !old(DecrementDisabled()) ==> quantity == old(quantity) - 1
      ensures Valid()
    {
      if quantity > 1 {
        quantity := quantity - 1;
      }
    }

    /** The input's `onChange`. */
    method InputChanged(text: string)
      modifies this
      ensures quantity == InputQuantity(text) && Valid()
    {
      quantity := InputQuantity(text);
    }

    /**
     * `handleAddToCart`: with a loaded product, the cart receives the current quantity, so its
     * item count grows by exactly that many; without one the cart is left as it was. `None` is
     * `addToCart` throwing (a new product without an image list).
     */
    method AddToCart(product: Option<CartContext.Product>, cart: CartContext.Cart, now: int)
      returns (r: Option<CartContext.Cart>)
      requires Valid()
      ensures product.None? ==> r == Some(cart)
      ensures product.Some? ==> r == CartContext.AddToCart(cart, product.value, Some(quantity), now)
      ensures product.Some? && r.Some? ==> CartContext.TotalItems(r.value) == CartContext.TotalItems(cart) + quantity
    {
      if product.Some? {
        r := CartContext.AddToCart(cart, product.value, Some(quantity), now);
        CartContext.AddToCartTotals(cart, product.value, Some(quantity), now);
      } else {
        r := Some(cart);
      }
    }
  }
}

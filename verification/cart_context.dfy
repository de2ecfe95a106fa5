/**
 * The cart held by src/context/CartContext.tsx. Every operation maps the previous cart to a new
 * one and recomputes `totalAmount` from the items; `totalItems` is derived from the items too.
 * Prices and quantities are integers.
 */
module CartContext {
  import opened Wrappers
  import Seqs
  import JsNumber

  datatype CartItem = CartItem(id: string, productId: string, name: string, price: int, quantity: int, image: Option<string>)

  datatype Cart = Cart(items: seq<CartItem>, totalAmount: int)

  /**
   * The fields of a product that `addToCart` reads. The image list is optional: the declared
   * `Product` type has no such field, only the catalogue records carry one.
   */
  datatype Product = Product(id: string, name: string, price: int, images: Option<seq<string>>)

  function LineAmount(item: CartItem): int
  {
    item.price * item.quantity
  }

  function Quantity(item: CartItem): int
  {
    item.quantity
  }

  /** `items.reduce((sum, item) => sum + item.price * item.quantity, 0)`. */
  function Amount(items: seq<CartItem>): int
  {
    Seqs.SumOf(items, LineAmount)
  }

  /** `totalItems`: `items.reduce((total, item) => total + item.quantity, 0)`. */
  function TotalItems(cart: Cart): int
  {
    Seqs.SumOf(cart.items, Quantity)
  }

  /** The stored total agrees with the items. */
  predicate Consistent(cart: Cart)
  {
    cart.totalAmount == Amount(cart.items)
  }

  /** No two lines share a product. */
  predicate DistinctProducts(items: seq<CartItem>)
  {
    forall i, j :: 0 <= i < j < |items| ==> items[i].productId != items[j].productId
  }

  /** A cart built from `items`, its total recomputed. */
  function WithItems(items: seq<CartItem>): (r: Cart)
    ensures Consistent(r) && r.items == items
  {
    Cart(items, Amount(items))
  }

  /** `items.findIndex(item => item.productId === productId)`: the first match, or -1. */
  function FindIndex(items: seq<CartItem>, productId: string): (r: int)
    ensures -1 <= r < |items|
    ensures r >= 0 ==> items[r].productId == productId
    ensures forall j :: 0 <= j < |items| && (r == -1 || j < r) ==> items[j].productId != productId
  {
    if items == [] then -1
    else if items[0].productId == productId then 0
    else
      var k := FindIndex(items[1..], productId);
      if k == -1 then -1 else k + 1
  }

  /**
   * The line `addToCart` appends for a product not yet in the cart; `now` stands for `Date.now()`.
   * `images[0]` of an empty list is `undefined`, hence no image; with no list at all the read
   * throws a `TypeError`, which is `None` here.
   */
  function NewItem(product: Product, quantity: int, now: int): (r: Option<CartItem>)
    ensures r.None? <==> product.images.None?
    ensures r.Some? ==> r.value.productId == product.id && r.value.price == product.price && r.value.quantity == quantity
    ensures r.Some? ==> r.value.image == if |product.images.value| > 0 then Some(product.images.value[0]) else None
  {
    match product.images
    case None => None
    case Some(images) =>
      Some(CartItem(JsNumber.ToText(JsNumber.Int(now)), product.id, product.name, product.price, quantity,
                    if |images| > 0 then Some(images[0]) else None))
  }

  /**
   * `addToCart(product, quantity = 1)`: the first line holding the product gets `quantity` more;
   * otherwise a new line is appended. Nothing else changes and the total is recomputed. `None`
   * is the state updater throwing: a product the cart does not hold yet that has no image list.
   */
  function AddToCart(cart: Cart, product: Product, quantity: Option<int>, now: int): (r: Option<Cart>)
    ensures r.None? <==> FindIndex(cart.items, product.id) == -1 && product.images.None?
    ensures r.Some? ==> Consistent(r.value)
    ensures var q := quantity.GetOr(1); var k := FindIndex(cart.items, product.id);
      && (k >= 0 ==> r == Some(WithItems(cart.items[k := cart.items[k].(quantity := cart.items[k].quantity + q)])))
      && (k == -1 && r.Some? ==> r.value.items == cart.items + [NewItem(product, q, now).value])
  {
    var q := quantity.GetOr(1);
    var k := FindIndex(cart.items, product.id);
    if k != -1 then
      Some(WithItems(cart.items[k := cart.items[k].(quantity := cart.items[k].quantity + q)]))
    else
      match NewItem(product, q, now)
      case None => None
      case Some(x) => Some(WithItems(cart.items + [x]))
  }

  predicate KeepsOther(productId: string, item: CartItem)
  {
    item.productId != productId
  }

  /** The filter `removeFromCart` applies. */
  function OtherThan(productId: string): CartItem -> bool
  {
    item => KeepsOther(productId, item)
  }

  /** `removeFromCart(productId)`: every line of that product goes, the others stay in order. */
  function RemoveFromCart(cart: Cart, productId: string): (r: Cart)
    ensures Consistent(r)
    ensures Seqs.IsSubsequence(r.items, cart.items)
    ensures forall i :: 0 <= i < |r.items| ==> r.items[i].productId != productId
    ensures forall i :: 0 <= i < |cart.items| && cart.items[i].productId != productId ==> cart.items[i] in r.items
    ensures forall x :: multiset(r.items)[x] == if x.productId == productId then 0 else multiset(cart.items)[x]
  {
    Seqs.FilterMultiplicity(cart.items, OtherThan(productId));
    Seqs.FilterIsSubsequence(cart.items, OtherThan(productId));
    Seqs.FilterMembers(cart.items, OtherThan(productId));
    WithItems(Seqs.Filter(cart.items, OtherThan(productId)))
  }

  /**
   * `updateQuantity(productId, quantity)`: below 1 the cart is left exactly as it was; otherwise
   * every line of that product gets the new quantity and every other line is unchanged.
   */
  function UpdateQuantity(cart: Cart, productId: string, quantity: int): (r: Cart)
    ensures quantity < 1 ==> r == cart
    ensures quantity >= 1 ==>
      && Consistent(r) && |r.items| == |cart.items|
      && forall i :: 0 <= i < |cart.items| ==>
           r.items[i] == if cart.items[i].productId == productId then cart.items[i].(quantity := quantity) else cart.items[i]
  {
    if quantity < 1 then cart
    else
      WithItems(seq(|cart.items|, i requires 0 <= i < |cart.items| =>
        if cart.items[i].productId == productId then cart.items[i].(quantity := quantity) else cart.items[i]))
  }

  /** `clearCart()`. */
  function ClearCart(): (r: Cart)
    ensures r.items == [] && r.totalAmount == 0 && Consistent(r) && TotalItems(r) == 0
  {
    Cart([], 0)
  }

  // ---------------------------------------------------------------------------------------------

  /**
   * What `addToCart` does to the totals: the item count grows by `quantity`, the amount by
   * `quantity` times the price of the line that received it (an existing line keeps its stored
   * price; a new line takes the product's price).
   */
  lemma AddToCartTotals(cart: Cart, product: Product, quantity: Option<int>, now: int)
    ensures var r := AddToCart(cart, product, quantity, now);
      var q := quantity.GetOr(1); var k := FindIndex(cart.items, product.id);
      r.Some? ==>
      && TotalItems(r.value) == TotalItems(cart) + q
      && r.value.totalAmount == Amount(cart.items) + q * (if k >= 0 then cart.items[k].price else product.price)
  {
    var q := quantity.GetOr(1);
    var k := FindIndex(cart.items, product.id);
    if k >= 0 {
      var x := cart.items[k].(quantity := cart.items[k].quantity + q);
      Seqs.SumOfUpdate(cart.items, k, x, Quantity);
      Seqs.SumOfUpdate(cart.items, k, x, LineAmount);
      LineAmountGrows(cart.items[k], q);
    } else if product.images.Some? {
      var x := NewItem(product, q, now).value;
      Seqs.SumOfAppend(cart.items, [x], Quantity);
      Seqs.SumOfAppend(cart.items, [x], LineAmount);
      Seqs.SumOfSingleton(x, Quantity);
      Seqs.SumOfSingleton(x, LineAmount);
    }
  }

  lemma LineAmountGrows(item: CartItem, q: int)
    ensures LineAmount(item.(quantity := item.quantity + q)) == LineAmount(item) + q * item.price
  {
    calc {
      LineAmount(item.(quantity := item.quantity + q));
      item.price * (item.quantity + q);
      item.price * item.quantity + item.price * q;
    }
  }

  /** `addToCart` never creates a second line for a product. */
  lemma AddToCartKeepsProductsDistinct(cart: Cart, product: Product, quantity: Option<int>, now: int)
    requires DistinctProducts(cart.items)
    ensures var r := AddToCart(cart, product, quantity, now);
      r.Some? ==> DistinctProducts(r.value.items)
    ensures var r := AddToCart(cart, product, quantity, now);
      r.Some? ==> exists i :: 0 <= i < |r.value.items| && r.value.items[i].productId == product.id
  {
    var r := AddToCart(cart, product, quantity, now);
    var k := FindIndex(cart.items, product.id);
    if k >= 0 {
      assert r.value.items[k].productId == product.id;
    } else if r.Some? {
      assert r.value.items[|cart.items|].productId == product.id;
    }
  }

  /**
   * Adding a product the cart does not hold and then removing it gives back the same lines, when
   * the product has an image list; without one the addition throws.
   */
  lemma RemoveUndoesAddOfNewProduct(cart: Cart, product: Product, quantity: Option<int>, now: int)
    requires forall i :: 0 <= i < |cart.items| ==> cart.items[i].productId != product.id
    ensures var r := AddToCart(cart, product, quantity, now);
      && (product.images.None? <==> r.None?)
      && (r.Some? ==> RemoveFromCart(r.value, product.id) == WithItems(cart.items))
  {
    assert FindIndex(cart.items, product.id) == -1;
    if product.images.None? {
      return;
    }
    var x := NewItem(product, quantity.GetOr(1), now).value;
    var p := OtherThan(product.id);
    assert AddToCart(cart, product, quantity, now).value.items == cart.items + [x];
    Seqs.FilterAppend(cart.items, [x], p);
    Seqs.FilterAll(cart.items, p);
    Seqs.FilterSingleton(x, p);
    assert Seqs.Filter(cart.items + [x], p) == cart.items;
  }

  /** Setting the same quantity twice is the same as setting it once. */
  lemma UpdateQuantityIdempotent(cart: Cart, productId: string, quantity: int)
    ensures UpdateQuantity(UpdateQuantity(cart, productId, quantity), productId, quantity)
         == UpdateQuantity(cart, productId, quantity)
  {
    if quantity >= 1 {
      var once := UpdateQuantity(cart, productId, quantity);
      var twice := UpdateQuantity(once, productId, quantity);
      assert twice.items == once.items;
      assert twice.totalAmount == Amount(twice.items) == once.totalAmount;
    }
  }

  /** With distinct products, a valid update sets the product's line count exactly to `quantity`. */
  lemma UpdateQuantityTotalItems(cart: Cart, productId: string, quantity: int)
    requires quantity >= 1 && DistinctProducts(cart.items)
    ensures var k := FindIndex(cart.items, productId);
      TotalItems(UpdateQuantity(cart, productId, quantity))
        == TotalItems(cart) + (if k >= 0 then quantity - cart.items[k].quantity else 0)
  {
    var r := UpdateQuantity(cart, productId, quantity);
    var k := FindIndex(cart.items, productId);
    if k >= 0 {
      assert r.items == cart.items[k := cart.items[k].(quantity := quantity)];
      Seqs.SumOfUpdate(cart.items, k, cart.items[k].(quantity := quantity), Quantity);
    } else {
      assert r.items == cart.items;
    }
  }
}

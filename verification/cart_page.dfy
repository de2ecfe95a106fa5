/**
 * The cart page of src/pages/CartPage.tsx: it shows the server's cart lines, their grand total,
 * and its minus/plus buttons send the line's quantity minus or plus one to the server.
 */
module CartPage {
  import opened Wrappers
  import Seqs

  /** A cart line as the server returns it. */
  datatype CartLine = CartLine(productId: string, productName: string, price: int, quantity: int, imageUrl: string)

  /** The body of the quantity update the buttons send. */
  datatype QuantityPayload = QuantityPayload(productId: string, quantity: int)

  /** The amount shown on a line: price times quantity. */
  function LineTotal(line: CartLine): int
  {
    line.price * line.quantity
  }

  /** `cartItems?.reduce((total, item) => total + item.price * item.quantity, 0) || 0`. */
  function TotalAmount(cartItems: Option<seq<CartLine>>): (total: int)
    ensures cartItems.None? ==> total == 0
    ensures cartItems.Some? ==> total == Seqs.SumOf(cartItems.value, LineTotal)
  {
    if cartItems.None? then 0
    else
      var sum := Seqs.SumOf(cartItems.value, LineTotal);
      if sum != 0 then sum else 0
  }

  /** `!cartItems?.length`: no data yet, or no lines. */
  predicate ShowsEmptyView(cartItems: Option<seq<CartLine>>)
  {
    cartItems.None? || |cartItems.value| == 0
  }

  /** The minus button's payload: the line's own product, one unit fewer than the line shows. */
  function MinusPayload(line: CartLine): (p: QuantityPayload)
    ensures p.productId == line.productId && p.quantity + 1 == line.quantity
  {
    QuantityPayload(line.productId, line.quantity - 1)
  }

  /** The plus button's payload: the line's own product, one unit more than the line shows. */
  function PlusPayload(line: CartLine): (p: QuantityPayload)
    ensures p.productId == line.productId && p.quantity - 1 == line.quantity
  {
    QuantityPayload(line.productId, line.quantity + 1)
  }

  /**
   * What the lines are assumed to become once the server has handled a quantity update and the
   * page has fetched the cart again: the matching lines take the requested quantity. The server's
   * own handling is not part of this model.
   */
  function Apply(lines: seq<CartLine>, payload: QuantityPayload): (r: seq<CartLine>)
    ensures |r| == |lines|
    ensures forall i :: 0 <= i < |lines| ==>
      r[i] == if lines[i].productId == payload.productId then lines[i].(quantity := payload.quantity) else lines[i]
  {
    seq(|lines|, i requires 0 <= i < |lines| =>
      if lines[i].productId == payload.productId then lines[i].(quantity := payload.quantity) else lines[i])
  }

  predicate DistinctProducts(lines: seq<CartLine>)
  {
    forall i, j :: 0 <= i < j < |lines| ==> lines[i].productId != lines[j].productId
  }

  /** The empty view shows exactly when there is nothing to total; a shown total is the sum of the line totals. */
  lemma EmptyViewHasNoTotal(cartItems: Option<seq<CartLine>>)
    ensures ShowsEmptyView(cartItems) ==> TotalAmount(cartItems) == 0
  {
  }

  /** Setting one line's quantity, with product ids distinct, moves the total by its price times the change. */
  lemma ApplyMovesTotal(lines: seq<CartLine>, k: int, q: int)
    requires 0 <= k < |lines| && DistinctProducts(lines)
    ensures TotalAmount(Some(Apply(lines, QuantityPayload(lines[k].productId, q))))
         == TotalAmount(Some(lines)) + lines[k].price * (q - lines[k].quantity)
  {
    var x := lines[k].(quantity := q);
    assert Apply(lines, QuantityPayload(lines[k].productId, q)) == lines[k := x];
    Seqs.SumOfUpdate(lines, k, x, LineTotal);
    assert LineTotal(x) - LineTotal(lines[k]) == lines[k].price * (q - lines[k].quantity) by {
      assert lines[k].price * q - lines[k].price * lines[k].quantity == lines[k].price * (q - lines[k].quantity);
    }
  }

  /**
   * Each button moves the grand total by exactly one unit price of its line (when the server
   * applies the update and product ids are distinct): plus adds the price, minus subtracts it.
   */
  lemma ButtonsMoveTotalByOnePrice(lines: seq<CartLine>, k: int)
    requires 0 <= k < |lines| && DistinctProducts(lines)
    ensures TotalAmount(Some(Apply(lines, PlusPayload(lines[k])))) == TotalAmount(Some(lines)) + lines[k].price
    ensures TotalAmount(Some(Apply(lines, MinusPayload(lines[k])))) == TotalAmount(Some(lines)) - lines[k].price
  {
    ApplyMovesTotal(lines, k, lines[k].quantity + 1);
    ApplyMovesTotal(lines, k, lines[k].quantity - 1);
  }

  /**
   * The minus button has no lower bound: on a line of quantity 1 or less it asks for a quantity
   * below 1, and the page sends that request to the server unchecked.
   */
  lemma MinusCanRequestBelowOne(line: CartLine)
    requires line.quantity <= 1
    ensures MinusPayload(line).quantity < 1
    ensures line.quantity == 1 ==> MinusPayload(line) == QuantityPayload(line.productId, 0)
  {
  }

  /**
   * Minus and then plus on the same line, the second click made on the line as fetched again,
   * give back the lines the page started with (when the server applies updates as assumed and
   * product ids are distinct).
   */
  lemma MinusThenPlusRestoresLines(lines: seq<CartLine>, k: int)
    requires 0 <= k < |lines| && DistinctProducts(lines)
    ensures var after := Apply(lines, MinusPayload(lines[k]));
      |after| == |lines| && Apply(after, PlusPayload(after[k])) == lines
  {
    var after := Apply(lines, MinusPayload(lines[k]));
    assert after[k] == lines[k].(quantity := lines[k].quantity - 1);
    var back := Apply(after, PlusPayload(after[k]));
    forall i | 0 <= i < |lines| ensures back[i] == lines[i] {
      if i != k {
        assert lines[i].productId != lines[k].productId;
      }
    }
  }
}

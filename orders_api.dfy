/** The client's `createOrder` request body: one `{ productId, quantity }`
    line per cart entry. */
module OrdersApi {

  import opened Wrappers
  import opened Http
  import opened CartContext

  /** One request line; the id is `undefined` when the product has neither id. */
  datatype Line = Line(productId: Option<string>, quantity: int)

  /** `items.map(item => ({ productId: item._id || item.id, quantity: item.quantity }))` */
  function ToOrderLines(cart: seq<CartItem>): (r: seq<Line>)
    ensures |r| == |cart|
    ensures forall i :: 0 <= i < |cart| ==> r[i] == Line(Key(cart[i].product), cart[i].quantity)
  {
    seq(|cart|, i requires 0 <= i < |cart| => Line(Key(cart[i].product), cart[i].quantity))
  }

  /** Two carts that agree on keys and quantities, whatever their names,
      prices, stock or images, send the same request. */
  lemma PricesNeverSent(c1: seq<CartItem>, c2: seq<CartItem>)
    requires |c1| == |c2|
    requires forall i :: 0 <= i < |c1| ==> Key(c1[i].product) == Key(c2[i].product) && c1[i].quantity == c2[i].quantity
    ensures ToOrderLines(c1) == ToOrderLines(c2)
  {
  }
}

/** The cart page: the quantity buttons delegate to the cart operations, and
    confirming a purchase steps `isProcessing` and the cart through the order
    request. */
module CartPage {

  import opened Wrappers
  import opened Http
  import opened CartContext
  import opened OrdersApi

  /** `handleIncrement(item)`: every entry with the item's key gets the
      item's quantity plus one; a quantity below 0 (which a valid cart never
      holds) makes it a removal. */
  function HandleIncrement(cart: seq<CartItem>, item: CartItem): (r: seq<CartItem>)
    ensures item.quantity >= 0 ==> |r| == |cart| && forall i :: 0 <= i < |cart| ==>
      r[i] == if Key(cart[i].product) == Key(item.product) then CartItem(cart[i].product, item.quantity + 1) else cart[i]
    ensures item.quantity < 0 ==> forall i :: 0 <= i < |r| ==> Key(r[i].product) != Key(item.product)
  {
    UpdateQuantity(cart, Key(item.product), item.quantity + 1)
  }

  /** `handleDecrement(item)`: only a quantity above 1 is lowered; then every
      entry with the item's key gets the item's quantity minus one, and every
      other entry is unchanged. */
  function HandleDecrement(cart: seq<CartItem>, item: CartItem): (r: seq<CartItem>)
    ensures |r| == |cart|
    ensures item.quantity <= 1 ==> r == cart
    ensures item.quantity > 1 ==> forall i :: 0 <= i < |cart| ==>
      r[i] == if Key(cart[i].product) == Key(item.product) then CartItem(cart[i].product, item.quantity - 1) else cart[i]
  {
    if item.quantity > 1 then UpdateQuantity(cart, Key(item.product), item.quantity - 1) else cart
  }

  /** `handleRemove(item)` */
  function HandleRemove(cart: seq<CartItem>, item: CartItem): (r: seq<CartItem>)
    ensures forall i :: 0 <= i < |r| ==> Key(r[i].product) != Key(item.product)
  {
    RemoveFrom(cart, Key(item.product))
  }

  /** `error.response?.data`: absent when the request got no answer. */
  datatype ResponseData = ResponseData(message: Option<string>, error: Option<string>)

  const DefaultErrorText: string := "Error al procesar la compra. Por favor, intenta de nuevo."

  /** The text of the failure toast. */
  function ErrorText(data: Option<ResponseData>): (r: string)
    ensures data.Some? && Truthy(data.value.message) ==> r == data.value.message.value
    ensures data.Some? && !Truthy(data.value.message) && Truthy(data.value.error) ==> r == data.value.error.value
    ensures data.None? || (!Truthy(data.value.message) && !Truthy(data.value.error)) ==> r == DefaultErrorText
    ensures r != ""
  {
    if data.Some? && Truthy(data.value.message) then data.value.message.value
    else if data.Some? && Truthy(data.value.error) then data.value.error.value
    else DefaultErrorText
  }

  /** What `createOrder(cart)` answered: success, or the failure's response data. */
  type Poster = seq<Line> -> Result<(), Option<ResponseData>>

  /** The page's own state. */
  class Page {
    var isProcessing: bool
    /** Every value `setIsProcessing` was given, in order. */
    var processingLog: seq<bool>

    constructor ()
      ensures !isProcessing && processingLog == []
    {
      isProcessing := false;
      processingLog := [];
    }

    /** `handleConfirmPurchase`: returns the request it sent, if any, and the
        error text it showed, if any. */
    method ConfirmPurchase(provider: CartProvider, post: Poster) returns (sent: Option<seq<Line>>, errorText: Option<string>)
      modifies this, provider
      ensures old(provider.cart) == [] ==>
        && sent == None && errorText == None
        && provider.cart == old(provider.cart)
        && isProcessing == old(isProcessing) && processingLog == old(processingLog)
      ensures old(provider.cart) != [] ==>
        && sent == Some(ToOrderLines(old(provider.cart)))
        && processingLog == old(processingLog) + [true, false] && !isProcessing
      ensures old(provider.cart) != [] && post(ToOrderLines(old(provider.cart))).Success? ==>
        provider.cart == [] && errorText == None
      ensures old(provider.cart) != [] && post(ToOrderLines(old(provider.cart))).Failure? ==>
        && provider.cart == old(provider.cart)
        && errorText == Some(ErrorText(post(ToOrderLines(old(provider.cart))).error))
    {
      if provider.cart == [] {
        return None, None;
      }
      isProcessing := true;
      processingLog := processingLog + [true];
      var lines := ToOrderLines(provider.cart);
      sent := Some(lines);
      var answer := post(lines);
      if answer.Success? {
        provider.ClearCart();
        errorText := None;
      } else {
        errorText := Some(ErrorText(answer.error));
      }
      isProcessing := false;
      processingLog := processingLog + [false];
    }
  }

  // ---------------------------------------------------------------------------
  // Properties
  // ---------------------------------------------------------------------------

  /** In a valid cart, incrementing an entry raises it by one and changes
      nothing else. */
  lemma IncrementOne(cart: seq<CartItem>, k: nat)
    requires Valid(cart) && k < |cart|
    ensures |HandleIncrement(cart, cart[k])| == |cart|
    ensures HandleIncrement(cart, cart[k])[k] == CartItem(cart[k].product, cart[k].quantity + 1)
    ensures forall i :: 0 <= i < |cart| && i != k ==> HandleIncrement(cart, cart[k])[i] == cart[i]
  {
    UpdatePositive(cart, Key(cart[k].product), cart[k].quantity + 1, k);
  }

  /** Decrementing never removes an entry, keeps the cart valid and changes
      no entry but the decremented one. */
  lemma DecrementKeeps(cart: seq<CartItem>, k: nat)
    requires Valid(cart) && k < |cart|
    ensures |HandleDecrement(cart, cart[k])| == |cart|
    ensures Valid(HandleDecrement(cart, cart[k]))
    ensures HandleDecrement(cart, cart[k])[k].quantity == if cart[k].quantity > 1 then cart[k].quantity - 1 else cart[k].quantity
    ensures forall j :: 0 <= j < |cart| && j != k ==> HandleDecrement(cart, cart[k])[j] == cart[j]
  {
    if cart[k].quantity > 1 {
      UpdateKeepsValid(cart, Key(cart[k].product), cart[k].quantity - 1);
      UpdatePositive(cart, Key(cart[k].product), cart[k].quantity - 1, k);
    }
  }

  /** In a valid cart an entry's key occurs nowhere else. */
  lemma KeyOnlyAt(cart: seq<CartItem>, k: nat)
    requires Valid(cart) && k < |cart|
    ensures !HasKey(cart[..k], Key(cart[k].product))
    ensures !HasKey(cart[k + 1..], Key(cart[k].product))
  {
    var front, back := cart[..k], cart[k + 1..];
    assert forall i :: 0 <= i < |front| ==> front[i] == cart[i];
    assert forall i :: 0 <= i < |back| ==> back[i] == cart[k + 1 + i];
  }

  /** Removing by an entry's own key drops just that entry from a valid cart. */
  lemma RemoveOne(cart: seq<CartItem>, k: nat)
    requires Valid(cart) && k < |cart|
    ensures HandleRemove(cart, cart[k]) == cart[..k] + cart[k + 1..]
  {
    var key := Key(cart[k].product);
    var front, back := cart[..k], cart[k + 1..];
    assert cart == front + ([cart[k]] + back);
    KeyOnlyAt(cart, k);
    RemoveAppend(front, [cart[k]] + back, key);
    RemoveAppend([cart[k]], back, key);
    RemoveAbsent(front, key);
    RemoveAbsent(back, key);
    assert RemoveFrom([cart[k]], key) == [] by {
      assert [cart[k]][1..] == [];
    }
  }
}

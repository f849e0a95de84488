/** The client's cart: a list of products, each with a quantity, keyed by
    `_id || id`. The list operations are the updater bodies passed to
    `setCart`; `CartProvider` holds the list and applies them. */
module CartContext {

  import opened Wrappers
  import opened Http

  /** A catalog product as the client receives it; prices are in cents. */
  datatype Product = Product(mongoId: Option<string>, id: Option<string>, name: string, price: int, stock: int,
                             image: Option<string>)

  /** `{ ...product, quantity }` */
  datatype CartItem = CartItem(product: Product, quantity: int)

  /** `item._id || item.id`; two entries without either share the key `undefined`. */
  function Key(p: Product): Option<string> {
    Or(p.mongoId, p.id)
  }

  predicate HasKey(cart: seq<CartItem>, key: Option<string>) {
    exists k :: 0 <= k < |cart| && Key(cart[k].product) == key
  }

  /** The cart's invariant: keys are unique and every quantity is at least 1. */
  predicate Valid(cart: seq<CartItem>) {
    && (forall i, j :: 0 <= i < j < |cart| ==> Key(cart[i].product) != Key(cart[j].product))
    && (forall i :: 0 <= i < |cart| ==> cart[i].quantity >= 1)
  }

  /** The `map` of `addToCart`: every entry with the key gains one unit. */
  function Increment(cart: seq<CartItem>, key: Option<string>): (r: seq<CartItem>)
    ensures |r| == |cart|
    ensures forall i :: 0 <= i < |cart| ==>
      r[i] == if Key(cart[i].product) == key then CartItem(cart[i].product, cart[i].quantity + 1) else cart[i]
  {
    seq(|cart|, i requires 0 <= i < |cart| =>
      if Key(cart[i].product) == key then CartItem(cart[i].product, cart[i].quantity + 1) else cart[i])
  }

  /** `addToCart(product)` */
  function AddTo(cart: seq<CartItem>, p: Product): seq<CartItem> {
    if HasKey(cart, Key(p)) then Increment(cart, Key(p)) else cart + [CartItem(p, 1)]
  }

  /** `removeFromCart(productId)`: the `filter` keeping the other keys, in order. */
  function RemoveFrom(cart: seq<CartItem>, key: Option<string>): (r: seq<CartItem>)
    ensures forall i :: 0 <= i < |r| ==> Key(r[i].product) != key
    ensures forall i :: 0 <= i < |r| ==> r[i] in cart
    ensures forall i :: 0 <= i < |cart| && Key(cart[i].product) != key ==> cart[i] in r
    ensures |r| <= |cart|
    decreases |cart|
  {
    if cart == [] then []
    else
      var rest := RemoveFrom(cart[1..], key);
      assert forall i :: 1 <= i < |cart| ==> cart[i] == cart[1..][i - 1];
      if Key(cart[0].product) == key then rest else [cart[0]] + rest
  }

  /** The `map` of `updateQuantity`: every entry with the key gets the quantity. */
  function SetQuantity(cart: seq<CartItem>, key: Option<string>, quantity: int): (r: seq<CartItem>)
    ensures |r| == |cart|
    ensures forall i :: 0 <= i < |cart| ==>
      r[i] == if Key(cart[i].product) == key then CartItem(cart[i].product, quantity) else cart[i]
  {
    seq(|cart|, i requires 0 <= i < |cart| =>
      if Key(cart[i].product) == key then CartItem(cart[i].product, quantity) else cart[i])
  }

  /** `updateQuantity(productId, quantity)`: a quantity of 0 or less removes. */
  function UpdateQuantity(cart: seq<CartItem>, key: Option<string>, quantity: int): seq<CartItem> {
    if quantity <= 0 then RemoveFrom(cart, key) else SetQuantity(cart, key, quantity)
  }

  /** `cartTotal`: price times quantity, summed in cart order. */
  function Total(cart: seq<CartItem>): int
    decreases |cart|
  {
    if cart == [] then 0 else Total(cart[..|cart| - 1]) + cart[|cart| - 1].product.price * cart[|cart| - 1].quantity
  }

  /** `cartCount`: the quantities summed. */
  function Count(cart: seq<CartItem>): int
    decreases |cart|
  {
    if cart == [] then 0 else Count(cart[..|cart| - 1]) + cart[|cart| - 1].quantity
  }

  /** The provider's state: the cart list, replaced by each `setCart`. */
  class CartProvider {
    var cart: seq<CartItem>

    constructor ()
      ensures cart == []
    {
      cart := [];
    }

    function CartTotal(): int
      reads this
    {
      Total(cart)
    }

    function CartCount(): int
      reads this
    {
      Count(cart)
    }

    method AddToCart(p: Product)
      modifies this
      ensures cart == AddTo(old(cart), p)
      ensures old(Valid(cart)) ==> Valid(cart) && CartCount() == old(CartCount()) + 1
    {
      if Valid(cart) {
        AddKeepsValid(cart, p);
        AddCount(cart, p);
      }
      cart := AddTo(cart, p);
    }

    method RemoveFromCart(key: Option<string>)
      modifies this
      ensures cart == RemoveFrom(old(cart), key)
      ensures old(Valid(cart)) ==> Valid(cart)
    {
      if Valid(cart) {
        RemoveKeepsValid(cart, key);
      }
      cart := RemoveFrom(cart, key);
    }

    method UpdateCartQuantity(key: Option<string>, quantity: int)
      modifies this
      ensures cart == UpdateQuantity(old(cart), key, quantity)
      ensures old(Valid(cart)) ==> Valid(cart)
    {
      if Valid(cart) {
        UpdateKeepsValid(cart, key, quantity);
      }
      if quantity <= 0 {
        RemoveFromCart(key);
        return;
      }
      cart := SetQuantity(cart, key, quantity);
    }

    method ClearCart()
      modifies this
      ensures cart == [] && Valid(cart) && CartCount() == 0 && CartTotal() == 0
    {
      cart := [];
    }
  }

  // ---------------------------------------------------------------------------
  // Properties
  // ---------------------------------------------------------------------------

  /** Adding a product already in a valid cart raises that entry by one and
      leaves the length and every other entry as they were. */
  lemma AddExisting(cart: seq<CartItem>, p: Product, k: nat)
    requires Valid(cart) && k < |cart| && Key(cart[k].product) == Key(p)
    ensures |AddTo(cart, p)| == |cart|
    ensures AddTo(cart, p)[k] == CartItem(cart[k].product, cart[k].quantity + 1)
    ensures forall i :: 0 <= i < |cart| && i != k ==> AddTo(cart, p)[i] == cart[i]
  {
  }

  /** Adding a new product appends it with quantity 1. */
  lemma AddNew(cart: seq<CartItem>, p: Product)
    requires !HasKey(cart, Key(p))
    ensures AddTo(cart, p) == cart + [CartItem(p, 1)]
  {
  }

  lemma AddKeepsValid(cart: seq<CartItem>, p: Product)
    requires Valid(cart)
    ensures Valid(AddTo(cart, p))
  {
    if !HasKey(cart, Key(p)) {
      var r := cart + [CartItem(p, 1)];
      assert forall i :: 0 <= i < |cart| ==> r[i] == cart[i];
    }
  }

  lemma UpdateKeepsValid(cart: seq<CartItem>, key: Option<string>, quantity: int)
    requires Valid(cart)
    ensures Valid(UpdateQuantity(cart, key, quantity))
  {
    if quantity <= 0 {
      RemoveKeepsValid(cart, key);
    }
  }

  /** The filter works entry by entry, so it keeps the survivors in order:
      filtering a concatenation filters each part. */
  lemma {:induction false} RemoveAppend(a: seq<CartItem>, b: seq<CartItem>, key: Option<string>)
    ensures RemoveFrom(a + b, key) == RemoveFrom(a, key) + RemoveFrom(b, key)
    decreases |a|
  {
    if a == [] {
      assert a + b == b;
    } else {
      assert (a + b)[1..] == a[1..] + b;
      assert (a + b)[0] == a[0];
      RemoveAppend(a[1..], b, key);
    }
  }

  /** Filtering a valid cart leaves a valid cart. */
  lemma {:induction false} RemoveKeepsValid(cart: seq<CartItem>, key: Option<string>)
    requires Valid(cart)
    ensures Valid(RemoveFrom(cart, key))
    decreases |cart|
  {
    if cart != [] {
      var tail := cart[1..];
      assert Valid(tail);
      RemoveKeepsValid(tail, key);
      var rest := RemoveFrom(tail, key);
      if Key(cart[0].product) != key {
        forall i | 0 <= i < |rest|
          ensures Key(rest[i].product) != Key(cart[0].product)
        {
          var c :| 0 <= c < |tail| && tail[c] == rest[i];
          assert cart[c + 1] == rest[i];
        }
        assert RemoveFrom(cart, key) == [cart[0]] + rest;
      }
    }
  }

  /** An absent key leaves the cart as it was. */
  lemma {:induction false} RemoveAbsent(cart: seq<CartItem>, key: Option<string>)
    requires !HasKey(cart, key)
    ensures RemoveFrom(cart, key) == cart
    decreases |cart|
  {
    if cart != [] {
      assert forall k :: 0 <= k < |cart[1..]| ==> cart[1..][k] == cart[k + 1];
      RemoveAbsent(cart[1..], key);
      assert Key(cart[0].product) != key;
      assert [cart[0]] + cart[1..] == cart;
    }
  }

  /** A positive quantity sets the matching entry and nothing else changes;
      in a valid cart that is exactly one entry. */
  lemma UpdatePositive(cart: seq<CartItem>, key: Option<string>, quantity: int, k: nat)
    requires quantity > 0 && Valid(cart) && k < |cart| && Key(cart[k].product) == key
    ensures |UpdateQuantity(cart, key, quantity)| == |cart|
    ensures UpdateQuantity(cart, key, quantity)[k] == CartItem(cart[k].product, quantity)
    ensures forall i :: 0 <= i < |cart| && i != k ==> UpdateQuantity(cart, key, quantity)[i] == cart[i]
  {
  }

  /** Counting after appending one entry. */
  lemma CountAppend(cart: seq<CartItem>, item: CartItem)
    ensures Count(cart + [item]) == Count(cart) + item.quantity
    ensures Total(cart + [item]) == Total(cart) + item.product.price * item.quantity
  {
    assert (cart + [item])[..|cart|] == cart;
  }

  /** Raising one entry of a valid cart adds one to the count. */
  lemma {:induction false} IncrementCount(cart: seq<CartItem>, key: Option<string>, k: nat)
    requires k < |cart| && Key(cart[k].product) == key
    requires forall i :: 0 <= i < |cart| && i != k ==> Key(cart[i].product) != key
    ensures Count(Increment(cart, key)) == Count(cart) + 1
    decreases |cart|
  {
    var r := Increment(cart, key);
    var n := |cart| - 1;
    assert Increment(cart[..n], key) == r[..n];
    if k == n {
      assert forall i :: 0 <= i < n ==> r[i] == cart[i];
      assert r[..n] == cart[..n];
    } else {
      IncrementCount(cart[..n], key, k);
    }
  }

  /** In a valid cart `addToCart` adds exactly one unit to `cartCount`. */
  lemma AddCount(cart: seq<CartItem>, p: Product)
    requires Valid(cart)
    ensures Count(AddTo(cart, p)) == Count(cart) + 1
  {
    if HasKey(cart, Key(p)) {
      var k :| 0 <= k < |cart| && Key(cart[k].product) == Key(p);
      IncrementCount(cart, Key(p), k);
    } else {
      CountAppend(cart, CartItem(p, 1));
    }
  }
}

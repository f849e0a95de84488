/** The product card: the out-of-stock and low-stock tests, the labels and
    image they choose, and the add-to-cart gate. */
module ProductCard {

  import opened Wrappers
  import opened Text
  import opened Http
  import opened CartContext

  /** `product.stock === 0` */
  predicate IsOutOfStock(p: Product) {
    p.stock == 0
  }

  /** The "¡Últimas unidades!" badge: `!isOutOfStock && product.stock <= 5`. */
  predicate ShowsLowStock(p: Product) {
    !IsOutOfStock(p) && p.stock <= 5
  }

  /** The stock line: "Sin stock", or the stock count. */
  function StockLabel(p: Product): (r: string)
    ensures IsOutOfStock(p) <==> r == "Sin stock"
    ensures !IsOutOfStock(p) ==> r == "Stock: " + IntToString(p.stock)
  {
    if IsOutOfStock(p) then "Sin stock"
    else
      var shown := "Stock: " + IntToString(p.stock);
      assert shown[1] != "Sin stock"[1];
      shown
  }

  function ButtonLabel(p: Product): (r: string)
    ensures r == "Agotado" <==> IsOutOfStock(p)
    ensures r == "Agregar" <==> !IsOutOfStock(p)
  {
    if IsOutOfStock(p) then "Agotado" else "Agregar"
  }

  const PlaceholderPrefix: string := "https://placehold.co/600x400?text="

  /** `product.image || placeholder`; `encode` is `encodeURIComponent`. */
  function ImageUrl(p: Product, encode: string -> string): (r: string)
    ensures Truthy(p.image) ==> r == p.image.value
    ensures !Truthy(p.image) ==> r == PlaceholderPrefix + encode(p.name)
  {
    if Truthy(p.image) then p.image.value else PlaceholderPrefix + encode(p.name)
  }

  /** `handleAddToCart`: the cart after the click. */
  function HandleAddToCart(cart: seq<CartItem>, p: Product): (r: seq<CartItem>)
    ensures IsOutOfStock(p) ==> r == cart
    ensures !IsOutOfStock(p) ==> r == AddTo(cart, p)
  {
    if !IsOutOfStock(p) then AddTo(cart, p) else cart
  }

  /** Negative stock counts as low stock, not as out of stock. */
  lemma NegativeStockIsLow(p: Product)
    ensures p.stock < 0 ==> ShowsLowStock(p) && !IsOutOfStock(p) && ButtonLabel(p) == "Agregar"
    ensures ShowsLowStock(p) <==> p.stock != 0 && p.stock <= 5
  {
  }

  /** From a valid cart the gate keeps the cart valid, and a click on an
      available product adds exactly one unit. */
  lemma GateKeepsCartValid(cart: seq<CartItem>, p: Product)
    requires Valid(cart)
    ensures Valid(HandleAddToCart(cart, p))
    ensures Count(HandleAddToCart(cart, p)) == Count(cart) + (if IsOutOfStock(p) then 0 else 1)
  {
    if !IsOutOfStock(p) {
      AddKeepsValid(cart, p);
      AddCount(cart, p);
    }
  }
}

/** The order service's `createOrder`: for each requested item it asks the
    catalog for the product, checks the stock, adds price times quantity to
    the total, classifies errors into fixed messages, and finally stores a
    PENDING order. It never reserves stock. */
module OrderService {

  import opened Wrappers
  import opened Text
  import opened Http

  /** A requested item, stored in the order as sent. `clientPrice` is a
      `price` field a client may send along; the service never reads it. */
  datatype Item = Item(productId: string, quantity: int, clientPrice: Option<int>)

  /** The fields of the catalog's product JSON that `createOrder` reads. */
  datatype CatalogProduct = CatalogProduct(name: string, price: int, stock: int)

  /** The outcome of `GET <catalog>/<productId>`: the product, or the error axios throws. */
  datatype Lookup = Found(product: CatalogProduct) | Failed(error: Error)

  /** The catalog as this service sees it: one answer per product id. */
  type Catalog = string -> Lookup

  datatype Status = PENDING | COMPLETED | CANCELLED

  datatype Order = Order(id: nat, userId: string, items: seq<Item>, totalAmount: int, status: Status)

  const UnavailableMessage: string := "El servicio de Catálogo " + "no está disponible. " + "Intente más tarde."

  function StockMessage(name: string): string {
    "Stock insuficiente para el producto: " + name
  }

  function MissingMessage(productId: string): string {
    "El producto " + productId + " no existe en el catálogo"
  }

  /** The `catch` block: a 404 answer and a refused connection get fixed
      messages; anything else is re-thrown as it is. */
  function Classify(e: Error, productId: string): Error {
    if e.responseStatus == Some(404) then Thrown(MissingMessage(productId))
    else if e.code == Some("ECONNREFUSED") then Thrown(UnavailableMessage)
    else e
  }

  /** One iteration of the loop: the amount the item adds to the total, or
      the error that leaves the loop. The short-stock error is thrown inside
      the `try`, so it goes through the `catch` too. */
  function PriceItem(catalog: Catalog, item: Item): Result<int, Error> {
    match catalog(item.productId)
    case Failed(e) => Failure(Classify(e, item.productId))
    case Found(p) =>
      if p.stock < item.quantity then Failure(Classify(Thrown(StockMessage(p.name)), item.productId))
      else Success(p.price * item.quantity)
  }

  /** The loop over the items: the accumulated `totalAmount`, or the error of
      the first item that fails. */
  function PriceSpec(catalog: Catalog, items: seq<Item>): Result<int, Error>
    decreases |items|
  {
    if items == [] then Success(0)
    else
      match PriceSpec(catalog, items[..|items| - 1])
      case Failure(e) => Failure(e)
      case Success(total) =>
        match PriceItem(catalog, items[|items| - 1])
        case Failure(e) => Failure(e)
        case Success(amount) => Success(total + amount)
  }

  /** Reference total: catalog price times requested quantity, summed. */
  function CatalogTotal(catalog: Catalog, items: seq<Item>): int
    decreases |items|
  {
    if items == [] then 0
    else
      var last := items[|items| - 1];
      CatalogTotal(catalog, items[..|items| - 1])
        + (match catalog(last.productId) case Found(p) => p.price * last.quantity case Failed(_) => 0)
  }

  /** The `for` loop of `createOrder`. Reads the catalog only. */
  method PriceItems(catalog: Catalog, items: seq<Item>) returns (r: Result<int, Error>)
    ensures r == PriceSpec(catalog, items)
    ensures items == [] ==> r == Success(0)
  {
    var totalAmount := 0;
    var i := 0;
    while i < |items|
      invariant 0 <= i <= |items|
      invariant PriceSpec(catalog, items[..i]) == Success(totalAmount)
    {
      var item := items[i];
      assert items[..i + 1][..i] == items[..i] && items[..i + 1][i] == item;
      match catalog(item.productId) {
        case Failed(e) =>
          PriceFailurePropagates(catalog, items, i + 1);
          return Failure(Classify(e, item.productId));
        case Found(product) =>
          if product.stock < item.quantity {
            PriceFailurePropagates(catalog, items, i + 1);
            return Failure(Classify(Thrown(StockMessage(product.name)), item.productId));
          }
          totalAmount := totalAmount + product.price * item.quantity;
      }
      i := i + 1;
    }
    assert items[..|items|] == items;
    r := Success(totalAmount);
  }

  /** The order that `prisma.order.create` stores for a successful call. */
  function NewOrder(id: nat, userId: string, items: seq<Item>, totalAmount: int): Order {
    Order(id, userId, items, totalAmount, PENDING)
  }

  /** What one `createOrder` call answers when the store would give the new
      order the id `nextId`: the priced order, or the first item's error. */
  function CreateSpec(catalog: Catalog, nextId: nat, userId: string, items: seq<Item>): Result<Order, Error> {
    match PriceSpec(catalog, items)
    case Failure(e) => Failure(e)
    case Success(totalAmount) => Success(NewOrder(nextId, userId, items, totalAmount))
  }

  /** The orders table; the store assigns each new order the next free id. */
  class OrderStore {
    var orders: seq<Order>

    constructor ()
      ensures orders == []
    {
      orders := [];
    }

    /** `createOrder(userId, items)`: price every item through the catalog,
        then store one PENDING order. Nothing is stored when an item fails. */
    method CreateOrder(catalog: Catalog, userId: string, items: seq<Item>) returns (r: Result<Order, Error>)
      modifies this
      ensures r == CreateSpec(catalog, |old(orders)|, userId, items)
      ensures r.Failure? ==> orders == old(orders)
      ensures r.Success? ==> orders == old(orders) + [r.value]
    {
      var priced := PriceItems(catalog, items);
      match priced {
        case Failure(e) =>
          r := Failure(e);
        case Success(totalAmount) =>
          var order := NewOrder(|orders|, userId, items, totalAmount);
          orders := orders + [order];
          r := Success(order);
      }
    }
  }

  // ---------------------------------------------------------------------------
  // Properties
  // ---------------------------------------------------------------------------

  /** A failing prefix decides the outcome: later items are not looked up. */
  lemma {:induction false} PriceFailurePropagates(catalog: Catalog, items: seq<Item>, n: nat)
    requires n <= |items| && PriceSpec(catalog, items[..n]).Failure?
    ensures PriceSpec(catalog, items) == PriceSpec(catalog, items[..n])
    decreases |items| - n
  {
    if n < |items| {
      assert items[..n + 1][..n] == items[..n];
      PriceFailurePropagates(catalog, items, n + 1);
    } else {
      assert items[..n] == items;
    }
  }

  /** Two requests that agree on product ids and quantities are priced alike,
      whatever prices the client sent with them. */
  lemma {:induction false} ClientPricesIgnored(catalog: Catalog, a: seq<Item>, b: seq<Item>)
    requires |a| == |b|
    requires forall j :: 0 <= j < |a| ==> a[j].productId == b[j].productId && a[j].quantity == b[j].quantity
    ensures PriceSpec(catalog, a) == PriceSpec(catalog, b)
    decreases |a|
  {
    if a != [] {
      var n := |a| - 1;
      assert PriceItem(catalog, a[n]) == PriceItem(catalog, b[n]);
      ClientPricesIgnored(catalog, a[..n], b[..n]);
    }
  }

  /** The call succeeds exactly when every item passes on its own, and then
      the total is catalog price times quantity summed over the items. */
  lemma {:induction false} PriceIntegrity(catalog: Catalog, items: seq<Item>)
    ensures PriceSpec(catalog, items).Success? <==> forall j :: 0 <= j < |items| ==> PriceItem(catalog, items[j]).Success?
    ensures PriceSpec(catalog, items).Success? ==> PriceSpec(catalog, items).value == CatalogTotal(catalog, items)
    decreases |items|
  {
    if items != [] {
      var front := items[..|items| - 1];
      PriceIntegrity(catalog, front);
      assert forall j :: 0 <= j < |front| ==> front[j] == items[j];
    }
  }

  /** A prefix of items that all pass on their own is priced. */
  lemma PrefixPriced(catalog: Catalog, items: seq<Item>, i: nat)
    requires i <= |items|
    requires forall j :: 0 <= j < i ==> PriceItem(catalog, items[j]).Success?
    ensures PriceSpec(catalog, items[..i]).Success?
  {
    var front := items[..i];
    assert forall j :: 0 <= j < |front| ==> PriceItem(catalog, front[j]).Success?;
    PriceIntegrity(catalog, front);
  }

  /** The first failing item, in order, decides the error. */
  lemma {:induction false} FirstFailingItemDecides(catalog: Catalog, items: seq<Item>, i: nat, e: Error)
    requires i < |items|
    requires forall j :: 0 <= j < i ==> PriceItem(catalog, items[j]).Success?
    requires PriceItem(catalog, items[i]) == Failure(e)
    ensures PriceSpec(catalog, items) == Failure(e)
    decreases |items|
  {
    var front := items[..|items| - 1];
    if i == |items| - 1 {
      PrefixPriced(catalog, items, i);
    } else {
      assert forall j :: 0 <= j <= i ==> front[j] == items[j];
      FirstFailingItemDecides(catalog, front, i, e);
    }
  }

  /** How one failing item is reported: short stock keeps its own message
      through the `catch`; a catalog 404 names the product id; a refused
      connection gets the fixed unavailable message; any other error is
      passed on unchanged. */
  lemma ItemErrors(catalog: Catalog, item: Item)
    ensures catalog(item.productId).Found? && catalog(item.productId).product.stock < item.quantity ==>
      PriceItem(catalog, item) == Failure(Thrown(StockMessage(catalog(item.productId).product.name)))
    ensures catalog(item.productId).Failed? && catalog(item.productId).error.responseStatus == Some(404) ==>
      PriceItem(catalog, item) == Failure(Thrown(MissingMessage(item.productId)))
    ensures (catalog(item.productId).Failed? && catalog(item.productId).error.responseStatus != Some(404)
             && catalog(item.productId).error.code == Some("ECONNREFUSED")) ==>
      PriceItem(catalog, item) == Failure(Thrown(UnavailableMessage))
    ensures (catalog(item.productId).Failed? && catalog(item.productId).error.responseStatus != Some(404)
             && catalog(item.productId).error.code != Some("ECONNREFUSED")) ==>
      PriceItem(catalog, item) == Failure(catalog(item.productId).error)
    ensures PriceItem(catalog, item).Failure? <==>
      catalog(item.productId).Failed? || catalog(item.productId).product.stock < item.quantity
  {
  }

  /** A call creates an order exactly when every item passes on its own; the
      order starts PENDING, belongs to the caller, keeps the items exactly as
      sent and carries the catalog total (0 for no items). */
  lemma CreateSpecShape(catalog: Catalog, nextId: nat, userId: string, items: seq<Item>)
    ensures CreateSpec(catalog, nextId, userId, items).Success? <==>
      forall j :: 0 <= j < |items| ==> PriceItem(catalog, items[j]).Success?
    ensures CreateSpec(catalog, nextId, userId, items).Success? ==>
      var o := CreateSpec(catalog, nextId, userId, items).value;
      o.id == nextId && o.status == PENDING && o.userId == userId && o.items == items
      && o.totalAmount == CatalogTotal(catalog, items)
    ensures items == [] ==> CreateSpec(catalog, nextId, userId, items) == Success(Order(nextId, userId, [], 0, PENDING))
  {
    PriceIntegrity(catalog, items);
  }
}

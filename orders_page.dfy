/** The orders page's helpers: the short order id, the item summary, the
    status badge lookup, the total it shows and the list it loads. */
module OrdersPage {

  import opened Wrappers
  import opened Text
  import opened Http
  import OrderService

  /** An order item as the page reads it: `item.product?.name`,
      `item.productId` and `item.quantity`. */
  datatype ItemJson = ItemJson(productName: Option<string>, productId: Option<string>, quantity: int)

  /** An order as the page reads it. */
  datatype OrderJson = OrderJson(id: string, items: Option<seq<ItemJson>>, totalPrice: Option<int>,
                                 totalAmount: Option<int>, status: string)

  /** `formatOrderId(id)`: `id.slice(-6).toUpperCase()`. */
  function FormatOrderId(id: string): string {
    Upper(TakeLast(id, 6))
  }

  /** `item.product?.name || item.productId || 'Producto'` */
  function ProductName(item: ItemJson): (r: string)
    ensures Truthy(item.productName) ==> r == item.productName.value
    ensures !Truthy(item.productName) && Truthy(item.productId) ==> r == item.productId.value
    ensures !Truthy(item.productName) && !Truthy(item.productId) ==> r == "Producto"
    ensures r != ""
  {
    var name := Or(item.productName, item.productId);
    if Truthy(name) then name.value else "Producto"
  }

  /** `${productName} x${item.quantity}` */
  function Entry(item: ItemJson): (r: string)
    ensures |r| > |ProductName(item)| + 1 && r[|ProductName(item)| + 1] == 'x'
    ensures r[..|ProductName(item)|] == ProductName(item)
    ensures r[|ProductName(item)|..|ProductName(item)| + 2] == " x"
    ensures r[|ProductName(item)| + 2..] == IntToString(item.quantity)
  {
    ProductName(item) + " x" + IntToString(item.quantity)
  }

  /** The `map` of `getItemsSummary`: one entry per item, in order. */
  function Entries(items: seq<ItemJson>): (r: seq<string>)
    ensures |r| == |items|
    ensures forall i :: 0 <= i < |items| ==> r[i] == Entry(items[i])
  {
    seq(|items|, i requires 0 <= i < |items| => Entry(items[i]))
  }

  const NoItems: string := "Sin items"

  /** `getItemsSummary(items)` */
  function ItemsSummary(items: Option<seq<ItemJson>>): string {
    if items.None? || items.value == [] then NoItems else Join(Entries(items.value), ", ")
  }

  datatype Badge = Badge(text: string)

  /** `statusConfig[status] || statusConfig.PENDING`, by its label. */
  function StatusBadge(status: string): (r: Badge)
    ensures status == "COMPLETED" ==> r == Badge("Completado")
    ensures status == "CANCELLED" ==> r == Badge("Cancelado")
    ensures status != "COMPLETED" && status != "CANCELLED" ==> r == Badge("Pendiente")
  {
    if status == "PENDING" then Badge("Pendiente")
    else if status == "COMPLETED" then Badge("Completado")
    else if status == "CANCELLED" then Badge("Cancelado")
    else Badge("Pendiente")
  }

  /** `order.totalPrice?.toFixed(2) || '0.00'`, as a number of cents. */
  function DisplayedTotal(o: OrderJson): int {
    if o.totalPrice.Some? then o.totalPrice.value else 0
  }

  /** The total as evidently intended: the field the order service stores. */
  function DisplayedTotalCorrected(o: OrderJson): int {
    if o.totalAmount.Some? then o.totalAmount.value else 0
  }

  /** The stored status enum as the JSON string the page receives. */
  function StatusName(status: OrderService.Status): string {
    match status
    case PENDING => "PENDING"
    case COMPLETED => "COMPLETED"
    case CANCELLED => "CANCELLED"
  }

  /** An order stored by the order service, as JSON: it has `totalAmount`
      and no `totalPrice`, and its status shows as the badge of that status. */
  function FromService(o: OrderService.Order): (r: OrderJson)
    ensures r.totalPrice.None? && r.totalAmount == Some(o.totalAmount)
    ensures o.status.PENDING? ==> StatusBadge(r.status) == Badge("Pendiente")
    ensures o.status.COMPLETED? ==> StatusBadge(r.status) == Badge("Completado")
    ensures o.status.CANCELLED? ==> StatusBadge(r.status) == Badge("Cancelado")
  {
    OrderJson(NatToString(o.id), Some(seq(|o.items|, i requires 0 <= i < |o.items| =>
      ItemJson(None, Some(o.items[i].productId), o.items[i].quantity))), None, Some(o.totalAmount), StatusName(o.status))
  }

  /** The body `getOrders()` answered with. */
  datatype Payload = ListBody(list: seq<OrderJson>) | ObjectBody(orders: Option<seq<OrderJson>>) | EmptyText | NullBody

  /** What `setOrders` receives: a list, or the object itself when it had no `orders`. */
  datatype Shown = Orders(list: seq<OrderJson>) | NotAList

  datatype LoadState = LoadState(orders: Shown, error: Option<string>, loading: bool)

  const LoadErrorMessage: string := "No se pudieron cargar las órdenes. Por favor, intenta de nuevo más tarde."

  /** `loadOrders`: `data.orders || data || []`; a failed request, or a null
      body whose `.orders` throws, keeps the previous orders and sets the error. */
  function LoadOrders(previous: Shown, response: Result<Payload, Error>): (r: LoadState)
    ensures !r.loading
    ensures r.error.Some? <==> response.Failure? || response.value == NullBody
    ensures r.error.Some? ==> r.orders == previous && r.error == Some(LoadErrorMessage)
    ensures response.Success? && response.value.ObjectBody? && response.value.orders.Some? ==>
      r.orders == Orders(response.value.orders.value)
    ensures response.Success? && response.value.ListBody? ==> r.orders == Orders(response.value.list)
    ensures response == Success(EmptyText) ==> r.orders == Orders([])
  {
    match response
    case Failure(_) => LoadState(previous, Some(LoadErrorMessage), false)
    case Success(ListBody(list)) => LoadState(Orders(list), None, false)
    case Success(ObjectBody(Some(list))) => LoadState(Orders(list), None, false)
    case Success(ObjectBody(None)) => LoadState(NotAList, None, false)
    case Success(EmptyText) => LoadState(Orders([]), None, false)
    case Success(NullBody) => LoadState(previous, Some(LoadErrorMessage), false)
  }

  // ---------------------------------------------------------------------------
  // Properties
  // ---------------------------------------------------------------------------

  lemma UpperCharIdempotent(c: char)
    ensures UpperChar(UpperChar(c)) == UpperChar(c)
  {
  }

  /** The short id is the last six characters of the id (all of them when
      it is shorter), each upper-cased. */
  lemma FormatOrderIdShape(id: string)
    ensures |FormatOrderId(id)| == if |id| < 6 then |id| else 6
    ensures forall k :: 0 <= k < |FormatOrderId(id)| ==>
      FormatOrderId(id)[k] == UpperChar(id[|id| - |FormatOrderId(id)| + k])
  {
    var tail := TakeLast(id, 6);
    var shown := FormatOrderId(id);
    assert shown == Upper(tail);
    forall k | 0 <= k < |shown|
      ensures shown[k] == UpperChar(id[|id| - |shown| + k])
    {
      assert tail[k] == id[|id| - |tail| + k];
    }
  }

  /** Formatting a formatted id changes nothing. */
  lemma FormatOrderIdIdempotent(id: string)
    ensures FormatOrderId(FormatOrderId(id)) == FormatOrderId(id)
  {
    var once := FormatOrderId(id);
    var twice := FormatOrderId(once);
    FormatOrderIdShape(id);
    FormatOrderIdShape(once);
    forall k | 0 <= k < |twice|
      ensures twice[k] == once[k]
    {
      UpperCharIdempotent(id[|id| - |once| + k]);
    }
  }

  /** The summary is 'Sin items' exactly when the items are missing or empty:
      every entry holds an 'x', and 'Sin items' does not. */
  lemma SummaryEmptyExactly(items: Option<seq<ItemJson>>)
    ensures ItemsSummary(items) == NoItems <==> items.None? || items.value == []
  {
    if items.Some? && items.value != [] {
      var parts := Entries(items.value);
      assert 'x' in parts[0] by {
        assert parts[0][|ProductName(items.value[0])| + 1] == 'x';
      }
      JoinKeepsChars(parts, ", ", 0, 'x');
      assert 'x' !in NoItems;
    }
  }

  /** The page shows 0 for every order the service creates, whatever its total. */
  lemma TotalAlwaysZero(o: OrderService.Order)
    ensures DisplayedTotal(FromService(o)) == 0
  {
  }

  /** The corrected reading shows what the service computed for the order:
      catalog price times quantity, summed over its items. */
  lemma CorrectedTotalIsCatalogTotal(catalog: OrderService.Catalog, nextId: nat, userId: string,
                                     items: seq<OrderService.Item>)
    requires OrderService.CreateSpec(catalog, nextId, userId, items).Success?
    ensures DisplayedTotalCorrected(FromService(OrderService.CreateSpec(catalog, nextId, userId, items).value))
      == OrderService.CatalogTotal(catalog, items)
  {
    OrderService.CreateSpecShape(catalog, nextId, userId, items);
  }

  /** A concrete case: two units at 1500 cents are stored as 3000 and shown as 0. */
  lemma TotalShownAsZeroExample()
    ensures var catalog: OrderService.Catalog := pid => OrderService.Found(OrderService.CatalogProduct("Teclado", 1500, 10));
      var items := [OrderService.Item("p1", 2, None)];
      && OrderService.CreateSpec(catalog, 0, "u1", items).Success?
      && OrderService.CreateSpec(catalog, 0, "u1", items).value.totalAmount == 3000
      && DisplayedTotal(FromService(OrderService.CreateSpec(catalog, 0, "u1", items).value)) == 0
      && DisplayedTotalCorrected(FromService(OrderService.CreateSpec(catalog, 0, "u1", items).value)) == 3000
  {
    var catalog: OrderService.Catalog := pid => OrderService.Found(OrderService.CatalogProduct("Teclado", 1500, 10));
    var items := [OrderService.Item("p1", 2, None)];
    assert items[..0] == [];
    assert OrderService.PriceSpec(catalog, items[..0]) == Success(0);
  }
}

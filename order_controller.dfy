/** The order service's HTTP handlers: `create` picks the caller's id from
    the decoded token and maps the service's errors to 400 or 500;
    `getOne` and `getAll` answer 404 or 500. */
module OrderController {

  import opened Wrappers
  import opened Text
  import opened Http
  import OrderService

  /** The decoded token attached by the middleware: the handler reads its
      `id` and `_id` fields. */
  datatype TokenUser = TokenUser(id: Option<string>, mongoId: Option<string>)

  /** `req.user.id || req.user._id` */
  function CallerId(user: TokenUser): Option<string> {
    Or(user.id, user.mongoId)
  }

  const UnidentifiedMessage: string := "Usuario no identificado en el token"

  /** The client-error class of the `catch` block. */
  predicate IsClientError(message: string) {
    Contains(message, "insuficiente") || Contains(message, "no existe")
  }

  /** The `catch` block of `create`: 400 for stock and existence errors, 500 otherwise. */
  function ErrorReply(e: Error): (r: Reply<OrderService.Order>)
    ensures r.body == Message(e.message)
    ensures r.status == 400 <==> IsClientError(e.message)
    ensures r.status == 500 <==> !IsClientError(e.message)
  {
    if IsClientError(e.message) then MessageReply(400, e.message) else MessageReply(500, e.message)
  }

  /** `create`: 401 when the token names no caller, without consulting the
      service; otherwise 201 with the created order, or the error's class.
      `service` is what `createOrder` answers for a given caller id. */
  function Create(user: TokenUser, service: string -> Result<OrderService.Order, Error>): (r: Reply<OrderService.Order>)
    ensures !Truthy(CallerId(user)) ==> r == MessageReply(401, UnidentifiedMessage)
    ensures Truthy(CallerId(user)) ==>
      (r.status == 201 <==> service(CallerId(user).value).Success?)
    ensures Truthy(CallerId(user)) && service(CallerId(user).value).Success? ==>
      r.body == Data(service(CallerId(user).value).value)
    ensures Truthy(CallerId(user)) && service(CallerId(user).value).Failure? ==>
      r == ErrorReply(service(CallerId(user).value).error)
  {
    var userId := CallerId(user);
    if !Truthy(userId) then MessageReply(401, UnidentifiedMessage)
    else
      match service(userId.value)
      case Success(order) => Reply(201, Data(order))
      case Failure(e) => ErrorReply(e)
  }

  /** `getOne`: the order (200), 404 "Orden no encontrada" when there is none, 500 on error. */
  function GetOne<T>(outcome: Result<Option<T>, Error>): (r: Reply<T>)
    ensures r.status == 200 <==> outcome.Success? && outcome.value.Some?
    ensures r.status == 404 <==> outcome.Success? && outcome.value.None?
    ensures r.status == 500 <==> outcome.Failure?
    ensures r.status == 200 ==> r.body == Data(outcome.value.value)
    ensures r.status == 404 ==> r.body == Message("Orden no encontrada")
    ensures r.status == 500 ==> r.body == Message(outcome.error.message)
  {
    match outcome
    case Success(Some(order)) => Reply(200, Data(order))
    case Success(None) => MessageReply(404, "Orden no encontrada")
    case Failure(e) => MessageReply(500, e.message)
  }

  /** `getAll`: the list (200), or 500 with the error's message. */
  function GetAll<T>(outcome: Result<T, Error>): (r: Reply<T>)
    ensures r.status == 200 <==> outcome.Success?
    ensures r.status == 500 <==> outcome.Failure?
    ensures outcome.Success? ==> r.body == Data(outcome.value)
    ensures outcome.Failure? ==> r.body == Message(outcome.error.message)
  {
    match outcome
    case Success(orders) => Reply(200, Data(orders))
    case Failure(e) => MessageReply(500, e.message)
  }

  /** `create` wired to the orders table: an unidentified caller leaves the
      table as it was; otherwise the order service runs once for the caller. */
  method CreateHandler(store: OrderService.OrderStore, catalog: OrderService.Catalog, user: TokenUser,
                       items: seq<OrderService.Item>) returns (reply: Reply<OrderService.Order>)
    modifies store
    ensures reply == Create(user, uid => OrderService.CreateSpec(catalog, |old(store.orders)|, uid, items))
    ensures !Truthy(CallerId(user)) ==> store.orders == old(store.orders)
    ensures Truthy(CallerId(user)) && reply.status == 201 ==>
      store.orders == old(store.orders) + [reply.body.payload]
    ensures Truthy(CallerId(user)) && reply.status != 201 ==> store.orders == old(store.orders)
  {
    var userId := CallerId(user);
    if !Truthy(userId) {
      return MessageReply(401, UnidentifiedMessage);
    }
    var created := store.CreateOrder(catalog, userId.value, items);
    match created {
      case Success(order) => reply := Reply(201, Data(order));
      case Failure(e) => reply := ErrorReply(e);
    }
  }

  // ---------------------------------------------------------------------------
  // The order service's messages against the handler's classes
  // ---------------------------------------------------------------------------

  /** An unidentified caller gets the same answer whatever the service would do. */
  lemma UnidentifiedSkipsService(user: TokenUser, s1: string -> Result<OrderService.Order, Error>,
                                 s2: string -> Result<OrderService.Order, Error>)
    requires !Truthy(CallerId(user))
    ensures Create(user, s1) == Create(user, s2) && Create(user, s1).status == 401
  {
  }

  /** The caller id is `id` when that is truthy, else `_id`. */
  lemma CallerIdChoice(user: TokenUser)
    ensures Truthy(user.id) ==> CallerId(user) == user.id
    ensures !Truthy(user.id) ==> CallerId(user) == user.mongoId
    ensures Truthy(CallerId(user)) <==> Truthy(user.id) || Truthy(user.mongoId)
  {
  }

  /** The short-stock message is a client error. */
  lemma StockMessageIsClientError(name: string)
    ensures IsClientError(OrderService.StockMessage(name))
  {
    ContainsInfix("Stock ", "insuficiente", " para el producto: " + name);
    assert "Stock insuficiente para el producto: " == "Stock " + "insuficiente" + " para el producto: ";
    assert OrderService.StockMessage(name) == "Stock " + "insuficiente" + (" para el producto: " + name);
  }

  /** The catalog-404 message is a client error. */
  lemma MissingMessageIsClientError(productId: string)
    ensures IsClientError(OrderService.MissingMessage(productId))
  {
    ContainsInfix("El producto " + productId + " ", "no existe", " en el catálogo");
    assert OrderService.MissingMessage(productId) == ("El producto " + productId + " ") + "no existe" + " en el catálogo";
  }

  /** The catalog-unavailable message is not: it answers 500. */
  lemma UnavailableIsServerError()
    ensures !IsClientError(OrderService.UnavailableMessage)
  {
    assert 'f' !in OrderService.UnavailableMessage && 'x' !in OrderService.UnavailableMessage;
    MissingCharNotContained(OrderService.UnavailableMessage, "insuficiente", 'f');
    MissingCharNotContained(OrderService.UnavailableMessage, "no existe", 'x');
  }

  /** For an identified caller, how one failing item decides the status:
      short stock and a catalog 404 answer 400, a refused connection 500. */
  lemma ItemFailureStatus(catalog: OrderService.Catalog, item: OrderService.Item)
    ensures catalog(item.productId).Found? && catalog(item.productId).product.stock < item.quantity ==>
      ErrorReply(OrderService.PriceItem(catalog, item).error).status == 400
    ensures catalog(item.productId).Failed? && catalog(item.productId).error.responseStatus == Some(404) ==>
      ErrorReply(OrderService.PriceItem(catalog, item).error).status == 400
    ensures (catalog(item.productId).Failed? && catalog(item.productId).error.responseStatus != Some(404)
             && catalog(item.productId).error.code == Some("ECONNREFUSED")) ==>
      ErrorReply(OrderService.PriceItem(catalog, item).error).status == 500
  {
    OrderService.ItemErrors(catalog, item);
    match catalog(item.productId) {
      case Found(p) => StockMessageIsClientError(p.name);
      case Failed(_) =>
        MissingMessageIsClientError(item.productId);
        UnavailableIsServerError();
    }
  }

  /** End to end for an identified caller whose items all pass up to the
      first failing one: the reply is that item's class. */
  lemma CreateFirstFailure(catalog: OrderService.Catalog, nextId: nat, user: TokenUser,
                           items: seq<OrderService.Item>, i: nat)
    requires Truthy(CallerId(user))
    requires i < |items|
    requires forall j :: 0 <= j < i ==> OrderService.PriceItem(catalog, items[j]).Success?
    requires OrderService.PriceItem(catalog, items[i]).Failure?
    ensures Create(user, uid => OrderService.CreateSpec(catalog, nextId, uid, items))
      == ErrorReply(OrderService.PriceItem(catalog, items[i]).error)
  {
    OrderService.FirstFailingItemDecides(catalog, items, i, OrderService.PriceItem(catalog, items[i]).error);
  }
}

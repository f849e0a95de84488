/** The catalog service's HTTP handlers: each turns the outcome of a product
    service call (its value, or the error it threw) into a status and a body. */
module CatalogController {

  import opened Wrappers
  import opened Text
  import opened Http
  import CatalogService

  /** `getProducts`: the list with 200, or 500 with the error's message. */
  function GetProducts<T>(outcome: Result<T, Error>): (r: Reply<T>)
    ensures r.status == 200 <==> outcome.Success?
    ensures r.status == 500 <==> outcome.Failure?
    ensures outcome.Success? ==> r.body == Data(outcome.value)
    ensures outcome.Failure? ==> r.body == Message(outcome.error.message)
  {
    match outcome
    case Success(products) => Reply(200, Data(products))
    case Failure(e) => MessageReply(500, e.message)
  }

  /** `createProduct`: 201 with the saved product, 400 on any error. */
  function CreateProduct<T>(outcome: Result<T, Error>): (r: Reply<T>)
    ensures r.status == 201 <==> outcome.Success?
    ensures r.status == 400 <==> outcome.Failure?
    ensures outcome.Success? ==> r.body == Data(outcome.value)
    ensures outcome.Failure? ==> r.body == Message(outcome.error.message)
  {
    match outcome
    case Success(product) => Reply(201, Data(product))
    case Failure(e) => MessageReply(400, e.message)
  }

  /** `getProductById`: the product with 200; 404 "Producto no encontrado"
      when there is none or the id is not a valid ObjectId; 500 otherwise. */
  function GetProductById<T>(outcome: Result<Option<T>, Error>): (r: Reply<T>)
    ensures r.status == 200 <==> outcome.Success? && outcome.value.Some?
    ensures r.status == 404 <==>
      (outcome.Success? && outcome.value.None?) || (outcome.Failure? && outcome.error.kind == Some("ObjectId"))
    ensures r.status == 500 <==> outcome.Failure? && outcome.error.kind != Some("ObjectId")
    ensures r.status == 404 ==> r.body == Message("Producto no encontrado")
    ensures r.status == 200 ==> r.body == Data(outcome.value.value)
  {
    match outcome
    case Success(Some(product)) => Reply(200, Data(product))
    case Success(None) => MessageReply(404, "Producto no encontrado")
    case Failure(e) =>
      if e.kind == Some("ObjectId") then MessageReply(404, "Producto no encontrado")
      else MessageReply(500, e.message)
  }

  /** The conflict class of `validateBatch`'s error test. */
  predicate IsConflict(message: string) {
    Contains(message, "Stock insuficiente") || Contains(message, "no encontrado")
  }

  /** `validateBatch`: 200 with the validation result, 409 when the message
      mentions short stock or a missing product, 500 for any other error. */
  function ValidateBatch(outcome: Result<CatalogService.Validation, Error>): (r: Reply<CatalogService.Validation>)
    ensures r.status == 200 <==> outcome.Success?
    ensures r.status == 409 <==> outcome.Failure? && IsConflict(outcome.error.message)
    ensures r.status == 500 <==> outcome.Failure? && !IsConflict(outcome.error.message)
    ensures outcome.Success? ==> r.body == Data(outcome.value)
    ensures outcome.Failure? ==> r.body == Message(outcome.error.message)
  {
    match outcome
    case Success(result) => Reply(200, Data(result))
    case Failure(e) =>
      if IsConflict(e.message) then MessageReply(409, e.message) else MessageReply(500, e.message)
  }

  /** The outcome of `validateStockBatch` as the handler sees it: a thrown
      message becomes an `Error` carrying it. */
  function ServiceOutcome(store: CatalogService.Store, lines: seq<CatalogService.Line>): Result<CatalogService.Validation, Error> {
    match CatalogService.ValidateSpec(store, lines)
    case Success(v) => Success(v)
    case Failure(m) => Failure(Thrown(m))
  }

  /** Every error the check pass raises is the error of one of its lines:
      a CastError, a not-found or a short-stock message. */
  lemma {:induction false} CheckBatchErrors(store: CatalogService.Store, lines: seq<CatalogService.Line>)
    requires CatalogService.CheckBatch(store, lines).Failure?
    ensures exists j :: 0 <= j < |lines| && CatalogService.CheckLine(store, lines[j]) == Failure(CatalogService.CheckBatch(store, lines).error)
    decreases |lines|
  {
    var front := lines[..|lines| - 1];
    if CatalogService.CheckBatch(store, front).Failure? {
      CheckBatchErrors(store, front);
      var j :| 0 <= j < |front| && CatalogService.CheckLine(store, front[j]) == Failure(CatalogService.CheckBatch(store, front).error);
      assert front[j] == lines[j];
    } else {
      assert CatalogService.CheckBatch(store, lines).error == CatalogService.CheckLine(store, lines[|lines| - 1]).error;
    }
  }

  /** The not-found message names the id and falls in the 409 class. */
  lemma NotFoundIsConflict(id: string)
    ensures IsConflict(CatalogService.NotFoundMessage(id))
  {
    ContainsInfix("Producto con ID " + id + " ", "no encontrado", "");
    assert CatalogService.NotFoundMessage(id) == ("Producto con ID " + id + " ") + "no encontrado" + "";
  }

  /** The short-stock message falls in the 409 class whatever it names. */
  lemma ShortStockIsConflict(name: string, available: int, requested: int)
    ensures IsConflict(CatalogService.ShortStockMessage(name, available, requested))
  {
    var tail := CatalogService.ShortStockDetail(name, available, requested);
    ContainsInfix("", "Stock insuficiente", tail);
    assert "" + "Stock insuficiente" + tail == "Stock insuficiente" + tail;
  }

  /** The fixed text before the id has no 'k' and no "co". */
  lemma CastPrefixPairs()
    ensures 'k' !in CatalogService.CastPrefix && NoPair(CatalogService.CastPrefix, 'c', 'o')
  {
    var a1, a2 := "Cast to ObjectId ", "failed for value \"";
    assert CatalogService.CastPrefix == a1 + a2;
    assert 'k' !in a1 && 'k' !in a2;
    assert NoPair(a1, 'c', 'o') && NoPair(a2, 'c', 'o');
    NoPairAppend(a1, a2, 'c', 'o');
  }

  /** The fixed text after the id has no 'k' and no "co", and opens with a quote. */
  lemma CastSuffixPairs()
    ensures 'k' !in CatalogService.CastSuffix && NoPair(CatalogService.CastSuffix, 'c', 'o')
    ensures CatalogService.CastSuffix[0] == '"'
  {
    var b1, b2, b3 := "\" (type string) ", "at path \"_id\" ", "for model \"Product\"";
    assert CatalogService.CastSuffix == b1 + b2 + b3;
    assert 'k' !in b1 && 'k' !in b2 && 'k' !in b3;
    assert NoPair(b1, 'c', 'o') && NoPair(b2, 'c', 'o') && NoPair(b3, 'c', 'o');
    NoPairAppend(b1, b2, 'c', 'o');
    NoPairAppend(b1 + b2, b3, 'c', 'o');
  }

  /** Mongoose's CastError message falls in the 500 class, unless the id
      itself spells out one of the two phrases: it suffices that the id has
      no 'k' and no "co". */
  lemma CastMessageNotConflict(id: string)
    requires 'k' !in id && NoPair(id, 'c', 'o')
    ensures !IsConflict(CatalogService.CastErrorMessage(id))
  {
    var p, q := CatalogService.CastPrefix, CatalogService.CastSuffix;
    var m := CatalogService.CastErrorMessage(id);
    assert m == p + id + q;
    CastPrefixPairs();
    CastSuffixPairs();
    assert 'k' !in m;
    assert 'k' == "Stock insuficiente"[4];
    MissingCharNotContained(m, "Stock insuficiente", 'k');
    NoPairAppend(p, id, 'c', 'o');
    NoPairAppend(p + id, q, 'c', 'o');
    assert 'c' == "no encontrado"[5] && 'o' == "no encontrado"[6];
    MissingPairNotContained(m, "no encontrado", 5);
  }

  /** For a batch whose ids are all well-formed, the rejections of
      `validateStockBatch` (unknown id, short stock) fall in the 409 class
      and a successful validation answers 200. */
  lemma ServiceRejectionsConflict(store: CatalogService.Store, lines: seq<CatalogService.Line>)
    requires forall j :: 0 <= j < |lines| ==> CatalogService.IsObjectId(lines[j].productId)
    ensures ValidateBatch(ServiceOutcome(store, lines)).status ==
      if CatalogService.ValidateSpec(store, lines).Success? then 200 else 409
  {
    if CatalogService.CheckBatch(store, lines).Failure? {
      CheckBatchErrors(store, lines);
      var j :| 0 <= j < |lines| && CatalogService.CheckLine(store, lines[j]) == Failure(CatalogService.CheckBatch(store, lines).error);
      var line := lines[j];
      if CatalogService.Key(line) !in store {
        NotFoundIsConflict(line.productId);
      } else {
        var p := store[CatalogService.Key(line)];
        ShortStockIsConflict(p.name, p.stock, line.quantity);
      }
    }
  }

  /** A malformed id, first among the failing lines, draws 500 and not 409:
      the CastError of `findById` mentions neither phrase. */
  lemma MalformedIdIsServerError(store: CatalogService.Store, lines: seq<CatalogService.Line>, i: nat)
    requires i < |lines| && !CatalogService.IsObjectId(lines[i].productId)
    requires forall j :: 0 <= j < i ==> CatalogService.CheckLine(store, lines[j]).Success?
    requires 'k' !in lines[i].productId && NoPair(lines[i].productId, 'c', 'o')
    ensures ValidateBatch(ServiceOutcome(store, lines)).status == 500
  {
    CatalogService.MalformedIdFails(store, lines, i);
    CastMessageNotConflict(lines[i].productId);
  }

  /** The smallest instance: the one-line batch naming "p1". */
  lemma MalformedIdExample(store: CatalogService.Store)
    ensures ValidateBatch(ServiceOutcome(store, [CatalogService.Line("p1", 1)])).status == 500
  {
    MalformedIdIsServerError(store, [CatalogService.Line("p1", 1)], 0);
  }
}
